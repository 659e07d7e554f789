/**
The collator's pending work on values: sources in insertion order, what a call
flushes, the bounds that hold after every call, and the conservation of every
CPU's batches.
*/
module CollatorRuns {
  import opened Words
  import opened Batches
  import opened Collation

  /** One CPU's pending batches and their tensor bytes. */
  datatype Pending = Pending(cpu: Cpu, batches: seq<Batch>, size: nat)

  function TableBytes(t: Option<Table>): nat {
    match t
    case None => 0
    case Some(t) =>
      ColumnBytes(t.columns) + 8 * (if t.sequences.Some? then |t.sequences.value| else 0) + |t.values| * t.width
  }

  function ColumnBytes(columns: seq<Column>): nat {
    if columns == [] then 0
    else
      var last := columns[|columns| - 1];
      ColumnBytes(columns[..|columns| - 1]) + if last.Some? then 8 * |last.value| else 0
  }

  /** The memory table's value column: sixteen bytes per row, here one cell. */
  const MEMORY_VALUES: nat := 4

  function MemoryBytes(t: Option<Table>): nat {
    TableBytes(t) +
    if t.Some? && |t.value.columns| > MEMORY_VALUES && t.value.columns[MEMORY_VALUES].Some?
    then 8 * |t.value.columns[MEMORY_VALUES].value| else 0
  }

  /** `tensor_bytes`: eight bytes per integer, one per register value byte, sixteen per memory value. */
  function TensorBytes(b: Batch): nat {
    8 * |b.addresses| + 8 * (if b.blockSequences.Some? then |b.blockSequences.value| else 0) +
    TableBytes(b.registers) + MemoryBytes(b.memory) + TableBytes(b.context)
  }

  function TotalBytes(bs: seq<Batch>): nat {
    if bs == [] then 0 else TotalBytes(bs[..|bs| - 1]) + TensorBytes(bs[|bs| - 1])
  }

  function SumSizes(sources: seq<Pending>): nat {
    if sources == [] then 0 else SumSizes(sources[..|sources| - 1]) + sources[|sources| - 1].size
  }

  function SumFrames(sources: seq<Pending>): nat {
    if sources == [] then 0 else SumFrames(sources[..|sources| - 1]) + |sources[|sources| - 1].batches|
  }

  /** The position of a CPU's pending batches; the number of sources if it has none. */
  function Find(sources: seq<Pending>, cpu: Cpu): (i: nat)
    ensures i <= |sources| && (i < |sources| ==> sources[i].cpu == cpu)
    ensures forall j :: 0 <= j < i ==> sources[j].cpu != cpu
  {
    if sources == [] then 0
    else
      var front := sources[..|sources| - 1];
      var i := Find(front, cpu);
      if i < |front| then i else if sources[|front|].cpu == cpu then |front| else |sources|
  }

  function Without(sources: seq<Pending>, i: nat): seq<Pending>
    requires i < |sources|
  {
    sources[..i] + sources[i + 1..]
  }

  /** The batch joins its CPU's pending batches, or starts them at the end of the order. */
  function Joined(sources: seq<Pending>, cpu: Cpu, b: Batch): seq<Pending> {
    var i := Find(sources, cpu);
    if i == |sources| then sources + [Pending(cpu, [b], TensorBytes(b))]
    else sources[i := Pending(cpu, sources[i].batches + [b], sources[i].size + TensorBytes(b))]
  }

  datatype Flush = Flush(sources: seq<Pending>, groups: seq<seq<Batch>>)

  /** The oldest sources leave until both budgets hold. */
  function Trim(target: nat, sources: seq<Pending>): Flush {
    if sources == [] || (SumSizes(sources) < 2 * target && SumFrames(sources) < MAX_PENDING_FRAMES)
    then Flush(sources, [])
    else
      var rest := Trim(target, sources[1..]);
      Flush(rest.sources, [sources[0].batches] + rest.groups)
  }

  /** The source that just grew leaves when it reaches the target or its frame limit. */
  function FlushGrown(target: nat, sources: seq<Pending>, cpu: Cpu): Flush {
    var i := Find(sources, cpu);
    if i < |sources| && (sources[i].size >= target || |sources[i].batches| >= MAX_SOURCE_FRAMES)
    then Flush(Without(sources, i), [sources[i].batches])
    else Flush(sources, [])
  }

  function Added(target: nat, sources: seq<Pending>, cpu: Cpu, b: Batch): Flush {
    var grown := FlushGrown(target, Joined(sources, cpu, b), cpu);
    var trimmed := Trim(target, grown.sources);
    Flush(trimmed.sources, grown.groups + trimmed.groups)
  }

  // ---------------------------------------------------------------- bounds

  /** Each CPU once, with a non-empty list of its own batches and their true size. */
  ghost predicate Sound(sources: seq<Pending>) {
    && (forall i, j :: 0 <= i < j < |sources| ==> sources[i].cpu != sources[j].cpu)
    && forall i :: 0 <= i < |sources| ==> Own(sources[i])
  }

  ghost predicate Own(p: Pending) {
    && p.batches != [] && p.size == TotalBytes(p.batches) && AllDecoded(p.batches)
    && forall k :: 0 <= k < |p.batches| ==> p.batches[k].source.Some? && CpuOf(p.batches[k]) == p.cpu
  }

  predicate Small(target: nat, p: Pending) {
    p.size < target && |p.batches| < MAX_SOURCE_FRAMES
  }

  /** What holds after every call. */
  ghost predicate Bounded(target: nat, sources: seq<Pending>) {
    && Sound(sources) && SumSizes(sources) < 2 * target && SumFrames(sources) < MAX_PENDING_FRAMES
    && forall i :: 0 <= i < |sources| ==> Small(target, sources[i])
  }

  lemma TotalAppend(bs: seq<Batch>, b: Batch)
    ensures TotalBytes(bs + [b]) == TotalBytes(bs) + TensorBytes(b)
  {
    assert (bs + [b])[..|bs|] == bs;
  }

  lemma DecodedSource(b: Batch)
    requires Decoded(b)
    ensures b.source.Some? && b.first.Some?
  {
  }

  lemma JoinedSound(sources: seq<Pending>, cpu: Cpu, b: Batch)
    requires Sound(sources) && Decoded(b) && CpuOf(b) == cpu
    ensures Sound(Joined(sources, cpu, b))
  {
    DecodedSource(b);
    hide TensorBytes, TotalBytes, Decoded;
    var i := Find(sources, cpu);
    if i < |sources| {
      assert Own(sources[i]);
      TotalAppend(sources[i].batches, b);
    } else {
      TotalAppend([], b);
      NoBytes();
      assert [] + [b] == [b];
    }
  }

  lemma NoBytes()
    ensures TotalBytes([]) == 0
  {
  }

  lemma WithoutSound(sources: seq<Pending>, i: nat)
    requires Sound(sources) && i < |sources|
    ensures Sound(Without(sources, i))
  {
    hide Own;
    var rest := Without(sources, i);
    forall k | 0 <= k < |rest| ensures rest[k] == sources[if k < i then k else k + 1] {}
  }

  /** Trimming leaves a suffix that meets both budgets. */
  lemma {:induction false} TrimBounds(target: nat, sources: seq<Pending>)
    requires target > 0 && Sound(sources) && forall i :: 0 <= i < |sources| ==> Small(target, sources[i])
    ensures Bounded(target, Trim(target, sources).sources)
  {
    hide Own, Small;
    if sources == [] {
    } else if SumSizes(sources) >= 2 * target || SumFrames(sources) >= MAX_PENDING_FRAMES {
      assert Sound(sources[1..]);
      TrimBounds(target, sources[1..]);
    }
  }

  /** After every accepted batch: pending bytes below twice the target, each CPU below it, frames within limits. */
  lemma AddedBounds(target: nat, sources: seq<Pending>, cpu: Cpu, b: Batch)
    requires target > 0 && Bounded(target, sources) && Decoded(b) && CpuOf(b) == cpu
    ensures Bounded(target, Added(target, sources, cpu, b).sources)
  {
    hide Own, TensorBytes, SumSizes, SumFrames, Trim, Decoded;
    JoinedSound(sources, cpu, b);
    var joined := Joined(sources, cpu, b);
    var i := Find(joined, cpu);
    var grown := FlushGrown(target, joined, cpu);
    if i < |joined| { WithoutSound(joined, i); }
    forall k | 0 <= k < |grown.sources| ensures Small(target, grown.sources[k]) {
      GrownSmall(target, sources, cpu, b, k);
    }
    TrimBounds(target, grown.sources);
  }

  lemma GrownSmall(target: nat, sources: seq<Pending>, cpu: Cpu, b: Batch, k: nat)
    requires Sound(sources) && forall i :: 0 <= i < |sources| ==> Small(target, sources[i])
    requires k < |FlushGrown(target, Joined(sources, cpu, b), cpu).sources|
    ensures Small(target, FlushGrown(target, Joined(sources, cpu, b), cpu).sources[k])
  {
    hide Own, TensorBytes, Joined, Sound, Find;
    JoinedFind(sources, cpu, b);
    var joined := Joined(sources, cpu, b);
    var i := Find(joined, cpu);
    if joined[i].size >= target || |joined[i].batches| >= MAX_SOURCE_FRAMES {
      assert Without(joined, i)[k] == joined[if k < i then k else k + 1];
    }
  }

  /** Joining changes only the CPU's own entry, and finds it again. */
  lemma JoinedFind(sources: seq<Pending>, cpu: Cpu, b: Batch)
    requires Sound(sources)
    ensures var joined := Joined(sources, cpu, b);
      var i := Find(joined, cpu);
      && i < |joined| && |sources| <= |joined| <= |sources| + 1
      && forall j :: 0 <= j < |joined| && j != i ==> j < |sources| && joined[j] == sources[j]
  {
    hide Own, TensorBytes, Find;
    var joined, i := Joined(sources, cpu, b), Find(sources, cpu);
    assert joined[i].cpu == cpu;
    forall j | 0 <= j < i ensures joined[j].cpu != cpu { assert joined[j] == sources[j]; }
  }

  // ---------------------------------------------------------------- conservation

  /** The batches of one CPU, in order. */
  function Only(bs: seq<Batch>, cpu: Cpu): (r: seq<Batch>)
    ensures forall i :: 0 <= i < |r| ==> r[i] in bs && r[i].source.Some? && CpuOf(r[i]) == cpu
  {
    if bs == [] then []
    else
      var last := bs[|bs| - 1];
      Only(bs[..|bs| - 1], cpu) + if last.source.Some? && CpuOf(last) == cpu then [last] else []
  }

  function Flat(groups: seq<seq<Batch>>): seq<Batch> {
    if groups == [] then [] else Flat(groups[..|groups| - 1]) + groups[|groups| - 1]
  }

  function All(sources: seq<Pending>): seq<Batch> {
    if sources == [] then [] else All(sources[..|sources| - 1]) + sources[|sources| - 1].batches
  }

  lemma {:induction false} OnlyConcat(a: seq<Batch>, b: seq<Batch>, cpu: Cpu)
    ensures Only(a + b, cpu) == Only(a, cpu) + Only(b, cpu)
  {
    if b == [] {
      assert a + b == a;
    } else {
      assert (a + b)[..|a + b| - 1] == a + b[..|b| - 1];
      OnlyConcat(a, b[..|b| - 1], cpu);
    }
  }

  lemma {:induction false} AllConcat(a: seq<Pending>, b: seq<Pending>)
    ensures All(a + b) == All(a) + All(b)
  {
    if b == [] {
      assert a + b == a;
    } else {
      assert (a + b)[..|a + b| - 1] == a + b[..|b| - 1];
      AllConcat(a, b[..|b| - 1]);
    }
  }

  lemma {:induction false} FlatConcat(a: seq<seq<Batch>>, b: seq<seq<Batch>>)
    ensures Flat(a + b) == Flat(a) + Flat(b)
  {
    if b == [] {
      assert a + b == a;
    } else {
      assert (a + b)[..|a + b| - 1] == a + b[..|b| - 1];
      FlatConcat(a, b[..|b| - 1]);
    }
  }

  lemma {:induction false} OwnOnly(bs: seq<Batch>, own: Cpu, cpu: Cpu)
    requires forall k :: 0 <= k < |bs| ==> bs[k].source.Some? && CpuOf(bs[k]) == own
    ensures Only(bs, cpu) == if own == cpu then bs else []
  {
    if bs != [] { OwnOnly(bs[..|bs| - 1], own, cpu); }
  }

  lemma {:induction false} OtherCpus(sources: seq<Pending>, cpu: Cpu)
    requires forall i :: 0 <= i < |sources| ==> Own(sources[i]) && sources[i].cpu != cpu
    ensures Only(All(sources), cpu) == []
  {
    if sources == [] {
    } else {
      var front, last := sources[..|sources| - 1], sources[|sources| - 1];
      OtherCpus(front, cpu);
      OnlyConcat(All(front), last.batches, cpu);
      OwnOnly(last.batches, last.cpu, cpu);
    }
  }

  /** Splitting the sources at one of them. */
  lemma {:induction false} AllSplit(sources: seq<Pending>, i: nat)
    requires i < |sources|
    ensures All(sources) == All(sources[..i]) + sources[i].batches + All(sources[i + 1..])
  {
    hide All;
    assert sources == sources[..i] + [sources[i]] + sources[i + 1..];
    AllConcat(sources[..i] + [sources[i]], sources[i + 1..]);
    AllConcat(sources[..i], [sources[i]]);
    OneSource(sources[i]);
  }

  lemma OnlySplit(sources: seq<Pending>, i: nat, cpu: Cpu)
    requires i < |sources|
    ensures Only(All(sources), cpu) ==
      Only(All(sources[..i]), cpu) + Only(sources[i].batches, cpu) + Only(All(sources[i + 1..]), cpu)
  {
    hide Only, All;
    AllSplit(sources, i);
    OnlyConcat(All(sources[..i]) + sources[i].batches, All(sources[i + 1..]), cpu);
    OnlyConcat(All(sources[..i]), sources[i].batches, cpu);
  }

  /** A source that leaves takes its CPU's oldest pending batches, which are all of them. */
  lemma WithoutConserves(sources: seq<Pending>, i: nat, cpu: Cpu)
    requires Sound(sources) && i < |sources|
    ensures Only(sources[i].batches, cpu) + Only(All(Without(sources, i)), cpu) == Only(All(sources), cpu)
  {
    hide Only, All;
    OnlySplit(sources, i, cpu);
    AllConcat(sources[..i], sources[i + 1..]);
    OnlyConcat(All(sources[..i]), All(sources[i + 1..]), cpu);
    assert Own(sources[i]);
    OwnOnly(sources[i].batches, sources[i].cpu, cpu);
    if sources[i].cpu == cpu {
      OtherCpus(sources[..i], cpu);
      OtherCpus(sources[i + 1..], cpu);
    } else {
      var a, b := Only(All(sources[..i]), cpu), Only(All(sources[i + 1..]), cpu);
      assert [] + (a + b) == a + [] + b;
    }
  }

  lemma JoinedConserves(sources: seq<Pending>, cpu: Cpu, b: Batch, k: Cpu)
    requires Sound(sources) && Decoded(b) && CpuOf(b) == cpu
    ensures Only(All(Joined(sources, cpu, b)), k) == Only(All(sources), k) + Only([b], k)
  {
    DecodedSource(b);
    hide Only, All, TensorBytes, Decoded;
    var i, joined := Find(sources, cpu), Joined(sources, cpu, b);
    if i == |sources| {
      AllConcat(sources, [Pending(cpu, [b], TensorBytes(b))]);
      OneSource(Pending(cpu, [b], TensorBytes(b)));
      OnlyConcat(All(sources), [b], k);
    } else {
      assert joined[..i] == sources[..i] && joined[i + 1..] == sources[i + 1..];
      OnlySplit(sources, i, k);
      OnlySplit(joined, i, k);
      OnlyConcat(sources[i].batches, [b], k);
      if k == cpu { OtherCpus(sources[i + 1..], k); } else { OneBatch(b, k); }
      AppendLast(Only(All(sources[..i]), k), Only(sources[i].batches, k), Only([b], k), Only(All(sources[i + 1..]), k));
    }
  }

  lemma OneSource(p: Pending)
    ensures All([p]) == p.batches
  {
    assert [p][..0] == [];
  }

  lemma OneBatch(b: Batch, k: Cpu)
    requires b.source.Some? && CpuOf(b) != k
    ensures Only([b], k) == []
  {
    assert [b][..0] == [];
  }

  lemma AppendLast(a: seq<Batch>, b: seq<Batch>, c: seq<Batch>, d: seq<Batch>)
    requires c == [] || d == []
    ensures a + (b + c) + d == a + b + d + c
  {
  }

  lemma {:induction false} TrimConserves(target: nat, sources: seq<Pending>, cpu: Cpu)
    requires Sound(sources)
    ensures var f := Trim(target, sources);
      Only(Flat(f.groups), cpu) + Only(All(f.sources), cpu) == Only(All(sources), cpu)
  {
    hide Only, All, Flat, SumSizes, SumFrames;
    if sources == [] || (SumSizes(sources) < 2 * target && SumFrames(sources) < MAX_PENDING_FRAMES) {
      NoGroups(cpu);
      assert [] + Only(All(sources), cpu) == Only(All(sources), cpu);
    } else {
      var rest := Trim(target, sources[1..]);
      WithoutSound(sources, 0);
      assert Without(sources, 0) == sources[1..];
      TrimConserves(target, sources[1..], cpu);
      WithoutConserves(sources, 0, cpu);
      FlatConcat([sources[0].batches], rest.groups);
      OneGroup(sources[0].batches);
      OnlyConcat(sources[0].batches, Flat(rest.groups), cpu);
      Associates(Only(sources[0].batches, cpu), Only(Flat(rest.groups), cpu), Only(All(rest.sources), cpu));
    }
  }

  lemma NoGroups(cpu: Cpu)
    ensures Flat([]) == [] && Only([], cpu) == []
  {
  }

  lemma OneGroup(g: seq<Batch>)
    ensures Flat([g]) == g
  {
    assert [g][..0] == [];
  }

  /** Flushed and still pending batches of every CPU are the pending ones plus the new one, in order. */
  lemma AddedConserves(target: nat, sources: seq<Pending>, cpu: Cpu, b: Batch, k: Cpu)
    requires Sound(sources) && Decoded(b) && CpuOf(b) == cpu
    ensures var f := Added(target, sources, cpu, b);
      Only(Flat(f.groups), k) + Only(All(f.sources), k) == Only(All(sources), k) + Only([b], k)
  {
    hide Only, All, Flat, Trim, Decoded, TensorBytes, Sound, Joined, FlushGrown;
    var joined := Joined(sources, cpu, b);
    JoinedSound(sources, cpu, b);
    JoinedConserves(sources, cpu, b, k);
    GrownConserves(target, joined, cpu, k);
    var grown := FlushGrown(target, joined, cpu);
    TrimConserves(target, grown.sources, k);
    var trimmed := Trim(target, grown.sources);
    FlatConcat(grown.groups, trimmed.groups);
    OnlyConcat(Flat(grown.groups), Flat(trimmed.groups), k);
    Associates(Only(Flat(grown.groups), k), Only(Flat(trimmed.groups), k), Only(All(trimmed.sources), k));
  }

  lemma Associates(x: seq<Batch>, y: seq<Batch>, z: seq<Batch>)
    ensures x + y + z == x + (y + z)
  {
  }

  lemma GrownConserves(target: nat, sources: seq<Pending>, cpu: Cpu, k: Cpu)
    requires Sound(sources)
    ensures var grown := FlushGrown(target, sources, cpu);
      Sound(grown.sources) && Only(Flat(grown.groups), k) + Only(All(grown.sources), k) == Only(All(sources), k)
  {
    hide Only, All, Flat, Sound, Without;
    var i := Find(sources, cpu);
    if i < |sources| {
      WithoutSound(sources, i);
      WithoutConserves(sources, i, k);
      OneGroup(sources[i].batches);
    }
    NoGroups(k);
    assert [] + Only(All(sources), k) == Only(All(sources), k);
  }

  // ---------------------------------------------------------------- whole runs

  /** Which optional columns each CPU's tables have. */
  type Shape = (Cpu, Signal, nat) -> bool

  ghost predicate Conforms(b: Batch, shape: Shape) {
    Decoded(b) && forall signal, c :: TableOf(b, signal).Some? && 0 <= c < |TableOf(b, signal).value.columns| ==>
      TableOf(b, signal).value.columns[c].Some? == shape(CpuOf(b), signal, c)
  }

  ghost predicate AllConform(bs: seq<Batch>, shape: Shape) {
    forall i :: 0 <= i < |bs| ==> Conforms(bs[i], shape)
  }

  ghost predicate Shaped(t: Table, cpu: Cpu, signal: Signal, shape: Shape) {
    forall c :: 0 <= c < |t.columns| ==> t.columns[c].Some? == shape(cpu, signal, c)
  }

  lemma {:induction false} PartsConform(bs: seq<Batch>, cpu: Cpu, signal: Signal, shape: Shape)
    requires AllConform(bs, shape) && AllDecoded(bs) && forall i :: 0 <= i < |bs| ==> CpuOf(bs[i]) == cpu
    ensures forall i :: 0 <= i < |PartsOf(bs, signal)| ==> Shaped(PartsOf(bs, signal)[i].table, cpu, signal, shape)
  {
    forall i | 0 <= i < |bs| ensures bs[i].first.Some? && bs[i].source.Some? { DecodedSource(bs[i]); }
    hide Decoded;
    if bs == [] {
    } else {
      var last, t := bs[|bs| - 1], TableOf(bs[|bs| - 1], signal);
      PartsConform(bs[..|bs| - 1], cpu, signal, shape);
      assert Conforms(last, shape) && CpuOf(last) == cpu;
      assert t.Some? ==> Shaped(t.value, cpu, signal, shape);
      hide Shaped;
    }
  }

  /** Batches of one CPU with the same optional columns always merge. */
  lemma ConformingMerge(bs: seq<Batch>, cpu: Cpu, shape: Shape)
    requires bs != [] && AllConform(bs, shape) && AllDecoded(bs) && forall i :: 0 <= i < |bs| ==> CpuOf(bs[i]) == cpu
    ensures Merge(bs).Some?
  {
    hide Mergeable, MergedSignal;
    forall signal ensures Mergeable(bs, signal) { SignalMerges(bs, cpu, signal, shape); }
  }

  lemma SignalMerges(bs: seq<Batch>, cpu: Cpu, signal: Signal, shape: Shape)
    requires bs != [] && AllConform(bs, shape) && AllDecoded(bs) && forall i :: 0 <= i < |bs| ==> CpuOf(bs[i]) == cpu
    ensures Mergeable(bs, signal)
  {
    hide PartsOf, Formed, Conforms;
    PartsFormed(bs, signal);
    PartsConform(bs, cpu, signal, shape);
    var parts := PartsOf(bs, signal);
    if parts != [] {
      forall c | 0 <= c < |parts[0].table.columns| ensures Uniform(parts, c) {
        forall i | 0 <= i < |parts| ensures parts[i].table.columns[c].Some? == shape(cpu, signal, c) {
          assert Shaped(parts[i].table, cpu, signal, shape);
        }
      }
    }
  }

  /** The merged output of each flushed group; none if a merge fails. */
  ghost function Outputs(groups: seq<seq<Batch>>): Option<seq<Batch>>
    requires Grouped(groups)
  {
    if groups == [] then Some([])
    else
      match Outputs(groups[..|groups| - 1])
      case None => None
      case Some(front) =>
        match Merge(groups[|groups| - 1])
        case None => None
        case Some(last) => Some(front + [last])
  }

  /** One CPU's rows of one signal in a list of batches. */
  ghost function RowsFor(bs: seq<Batch>, cpu: Cpu, signal: Signal): seq<Row>
    requires AllDecoded(bs)
  {
    OnlyDecoded(bs, cpu);
    RowsOfAll(Only(bs, cpu), signal)
  }

  lemma OnlyDecoded(bs: seq<Batch>, cpu: Cpu)
    requires AllDecoded(bs)
    ensures AllDecoded(Only(bs, cpu))
  {
    hide Decoded;
    forall i | 0 <= i < |Only(bs, cpu)| ensures Decoded(Only(bs, cpu)[i]) { assert Only(bs, cpu)[i] in bs; }
  }

  lemma {:induction false} RowsConcatAll(a: seq<Batch>, b: seq<Batch>, signal: Signal)
    requires AllDecoded(a) && AllDecoded(b)
    ensures AllDecoded(a + b) && RowsOfAll(a + b, signal) == RowsOfAll(a, signal) + RowsOfAll(b, signal)
  {
    hide Decoded, RowsOf;
    if b == [] {
      assert a + b == a;
    } else {
      assert (a + b)[..|a + b| - 1] == a + b[..|b| - 1];
      RowsConcatAll(a, b[..|b| - 1], signal);
    }
  }

  lemma RowsForConcat(a: seq<Batch>, b: seq<Batch>, cpu: Cpu, signal: Signal)
    requires AllDecoded(a) && AllDecoded(b)
    ensures AllDecoded(a + b) && RowsFor(a + b, cpu, signal) == RowsFor(a, cpu, signal) + RowsFor(b, cpu, signal)
  {
    hide Decoded, RowsOfAll, Only;
    OnlyConcat(a, b, cpu);
    OnlyDecoded(a, cpu);
    OnlyDecoded(b, cpu);
    RowsConcatAll(Only(a, cpu), Only(b, cpu), signal);
  }

  /** Groups that each hold batches of a single CPU. */
  ghost predicate Grouped(groups: seq<seq<Batch>>) {
    forall i :: 0 <= i < |groups| ==> groups[i] != [] && AllDecoded(groups[i]) && SameCpu(groups[i])
  }

  lemma {:induction false} FlatDecoded(groups: seq<seq<Batch>>)
    requires Grouped(groups)
    ensures AllDecoded(Flat(groups))
  {
    hide Decoded;
    if groups != [] { FlatDecoded(groups[..|groups| - 1]); }
  }

  /** Merging the groups changes no CPU's rows. */
  lemma {:induction false} OutputRows(groups: seq<seq<Batch>>, cpu: Cpu, signal: Signal)
    requires Grouped(groups) && Outputs(groups).Some?
    ensures AllDecoded(Flat(groups)) && AllDecoded(Outputs(groups).value)
    ensures RowsFor(Outputs(groups).value, cpu, signal) == RowsFor(Flat(groups), cpu, signal)
  {
    hide Decoded, RowsOf, RowsFor, Merge;
    FlatDecoded(groups);
    if groups == [] {
    } else {
      var front, last := groups[..|groups| - 1], groups[|groups| - 1];
      OutputRows(front, cpu, signal);
      var m := Merge(last).value;
      MergeRows(last);
      RowsForConcat(Flat(front), last, cpu, signal);
      RowsForConcat(Outputs(front).value, [m], cpu, signal);
      GroupRows(last, m, cpu, signal);
    }
  }

  lemma GroupRows(group: seq<Batch>, m: Batch, cpu: Cpu, signal: Signal)
    requires group != [] && AllDecoded(group) && SameCpu(group)
    requires Decoded(m) && CpuOf(m) == CpuOf(group[0]) && RowsOf(m, signal) == RowsOfAll(group, signal)
    ensures RowsFor([m], cpu, signal) == RowsFor(group, cpu, signal)
  {
    forall i | 0 <= i < |group| ensures group[i].source.Some? { DecodedSource(group[i]); }
    DecodedSource(m);
    hide Decoded, RowsOf, Only, RowsOfAll;
    OwnOnly(group, CpuOf(group[0]), cpu);
    OwnOnly([m], CpuOf(m), cpu);
    OneRows(m, signal);
  }

  lemma OneRows(m: Batch, signal: Signal)
    requires Decoded(m)
    ensures RowsOfAll([m], signal) == RowsOf(m, signal) && RowsOfAll([], signal) == []
  {
    hide Decoded, RowsOf;
    assert [m][..0] == [];
  }

  /** What a run has read and what it has put out. */
  datatype Run = Run(sources: seq<Pending>, inputs: seq<Batch>, outputs: seq<Batch>)

  datatype Op = Add(batch: Batch) | EndSource(cpu: Cpu) | Finish

  function Groups(sources: seq<Pending>): (r: seq<seq<Batch>>)
    ensures |r| == |sources| && forall i :: 0 <= i < |r| ==> r[i] == sources[i].batches
  {
    seq(|sources|, i requires 0 <= i < |sources| => sources[i].batches)
  }

  /** What a call flushes and leaves pending. */
  function Flushes(target: nat, sources: seq<Pending>, op: Op): Flush
    requires op.Add? ==> op.batch.source.Some?
  {
    match op
    case Add(b) => Added(target, sources, CpuOf(b), b)
    case EndSource(cpu) =>
      var i := Find(sources, cpu);
      if i < |sources| then Flush(Without(sources, i), [sources[i].batches]) else Flush(sources, [])
    case Finish => Flush([], Groups(sources))
  }

  /** Pending bounds, and every CPU's rows out or pending in input order. */
  ghost predicate Collates(target: nat, shape: Shape, r: Run) {
    && Bounded(target, r.sources) && AllDecoded(r.inputs) && AllDecoded(r.outputs)
    && AllDecoded(All(r.sources)) && AllConform(All(r.sources), shape)
    && forall cpu, signal ::
         RowsFor(r.outputs, cpu, signal) + RowsFor(All(r.sources), cpu, signal) == RowsFor(r.inputs, cpu, signal)
  }

  lemma {:induction false} AllFacts(sources: seq<Pending>)
    requires Sound(sources)
    ensures AllDecoded(All(sources))
    ensures forall i :: 0 <= i < |sources| ==>
      sources[i].batches != [] && AllDecoded(sources[i].batches) && SameCpu(sources[i].batches)
  {
    hide Decoded;
    forall i | 0 <= i < |sources|
      ensures sources[i].batches != [] && AllDecoded(sources[i].batches) && SameCpu(sources[i].batches)
    {
      assert Own(sources[i]);
    }
    if sources == [] {
    } else {
      var front := sources[..|sources| - 1];
      assert Sound(front);
      AllFacts(front);
    }
  }

  lemma {:induction false} GroupsFlat(sources: seq<Pending>)
    ensures Flat(Groups(sources)) == All(sources)
  {
    if sources == [] {
    } else {
      GroupsFlat(sources[..|sources| - 1]);
      assert Groups(sources)[..|sources| - 1] == Groups(sources[..|sources| - 1]);
    }
  }

  lemma {:induction false} TrimGroups(target: nat, sources: seq<Pending>)
    requires Sound(sources)
    ensures Grouped(Trim(target, sources).groups)
  {
    hide SumSizes, SumFrames, Decoded, Own;
    AllFacts(sources);
    if sources != [] && !(SumSizes(sources) < 2 * target && SumFrames(sources) < MAX_PENDING_FRAMES) {
      assert Sound(sources[1..]);
      TrimGroups(target, sources[1..]);
    }
  }

  /** Every flushed group is a non-empty list of one CPU's batches. */
  lemma FlushedGroups(target: nat, sources: seq<Pending>, op: Op)
    requires target > 0 && Bounded(target, sources) && (op.Add? ==> Decoded(op.batch) && op.batch.source.Some?)
    ensures var f := Flushes(target, sources, op); Grouped(f.groups) && Bounded(target, f.sources)
  {
    hide SumSizes, SumFrames, Decoded, Own, Trim, TensorBytes, Joined;
    AllFacts(sources);
    match op
    case Add(b) =>
      var cpu := CpuOf(b);
      AddedBounds(target, sources, cpu, b);
      JoinedSound(sources, cpu, b);
      var joined := Joined(sources, cpu, b);
      AllFacts(joined);
      var i, grown := Find(joined, cpu), FlushGrown(target, joined, cpu);
      if i < |joined| { WithoutSound(joined, i); }
      TrimGroups(target, grown.sources);
    case EndSource(cpu) =>
      var i := Find(sources, cpu);
      if i < |sources| { WithoutBounded(target, sources, i); }
    case Finish =>
      NoSources();
  }

  lemma NoSources()
    ensures SumSizes([]) == 0 && SumFrames([]) == 0
  {
  }

  lemma {:induction false} SumSplit(sources: seq<Pending>, i: nat)
    requires i < |sources|
    ensures SumSizes(sources) == SumSizes(Without(sources, i)) + sources[i].size
    ensures SumFrames(sources) == SumFrames(Without(sources, i)) + |sources[i].batches|
  {
    var last := |sources| - 1;
    if i == last {
      assert Without(sources, i) == sources[..last];
    } else {
      SumSplit(sources[..last], i);
      assert Without(sources, i)[..last - 1] == Without(sources[..last], i);
    }
  }

  lemma WithoutBounded(target: nat, sources: seq<Pending>, i: nat)
    requires Bounded(target, sources) && i < |sources|
    ensures Bounded(target, Without(sources, i))
  {
    hide Own, SumSizes, SumFrames, Small;
    WithoutSound(sources, i);
    SumSplit(sources, i);
    var rest := Without(sources, i);
    forall k | 0 <= k < |rest| ensures Small(target, rest[k]) {
      assert rest[k] == sources[if k < i then k else k + 1];
    }
  }

  /** Every call conserves every CPU's batches. */
  lemma FlushConserves(target: nat, sources: seq<Pending>, op: Op, cpu: Cpu)
    requires target > 0 && Bounded(target, sources) && (op.Add? ==> Decoded(op.batch) && op.batch.source.Some?)
    ensures var f := Flushes(target, sources, op);
      Only(Flat(f.groups), cpu) + Only(All(f.sources), cpu) ==
        Only(All(sources), cpu) + Only(if op.Add? then [op.batch] else [], cpu)
  {
    hide Only, All, Flat, Added, Decoded, SumSizes, SumFrames, Small;
    NoGroups(cpu);
    var pending := Only(All(sources), cpu);
    assert [] + pending == pending && pending + [] == pending;
    match op
    case Add(b) => AddedConserves(target, sources, CpuOf(b), b, cpu);
    case EndSource(k) =>
      var i := Find(sources, k);
      if i < |sources| {
        WithoutConserves(sources, i, cpu);
        OneGroup(sources[i].batches);
      }
    case Finish =>
      GroupsFlat(sources);
      NothingPending();
  }

  lemma NothingPending()
    ensures All([]) == []
  {
  }

  lemma {:induction false} OnlyHas(bs: seq<Batch>, x: Batch, cpu: Cpu)
    requires x.source.Some? && CpuOf(x) == cpu
    ensures x in bs <==> x in Only(bs, cpu)
  {
    if bs == [] {
    } else {
      OnlyHas(bs[..|bs| - 1], x, cpu);
      assert bs == bs[..|bs| - 1] + [bs[|bs| - 1]];
    }
  }

  lemma {:induction false} FlatHas(groups: seq<seq<Batch>>, i: nat, x: Batch)
    requires i < |groups| && x in groups[i]
    ensures x in Flat(groups)
  {
    if i < |groups| - 1 { FlatHas(groups[..|groups| - 1], i, x); }
  }

  /** Whatever is flushed or stays pending was pending before or is the new batch. */
  lemma OnlyOld(target: nat, sources: seq<Pending>, op: Op, x: Batch)
    requires target > 0 && Bounded(target, sources) && (op.Add? ==> Decoded(op.batch) && op.batch.source.Some?)
    requires x.source.Some?
    ensures var f := Flushes(target, sources, op);
      x in Flat(f.groups) || x in All(f.sources) ==> x in All(sources) || (op.Add? && x == op.batch)
  {
    hide Only, All, Flat, Flushes, Decoded, Bounded;
    var f, cpu := Flushes(target, sources, op), CpuOf(x);
    FlushConserves(target, sources, op, cpu);
    OnlyHas(Flat(f.groups), x, cpu);
    OnlyHas(All(f.sources), x, cpu);
    OnlyHas(All(sources), x, cpu);
    var more := if op.Add? then [op.batch] else [];
    OnlyHas(more, x, cpu);
    var a, b := Only(Flat(f.groups), cpu) + Only(All(f.sources), cpu), Only(All(sources), cpu) + Only(more, cpu);
    assert x in a <==> x in Flat(f.groups) || x in All(f.sources);
    assert x in b <==> x in All(sources) || x in more;
  }

  /** Under one shape per CPU no merge fails. */
  lemma {:induction false} GroupsMerge(groups: seq<seq<Batch>>, shape: Shape)
    requires Grouped(groups) && forall x :: x in Flat(groups) ==> Conforms(x, shape)
    ensures Outputs(groups).Some?
  {
    hide Conforms, Decoded, Merge;
    if groups == [] {
    } else {
      var front, last := groups[..|groups| - 1], groups[|groups| - 1];
      GroupsMerge(front, shape);
      forall i | 0 <= i < |last| ensures Conforms(last[i], shape) { FlatHas(groups, |groups| - 1, last[i]); }
      DecodedSource(last[0]);
      ConformingMerge(last, CpuOf(last[0]), shape);
    }
  }

  /**
   * One call: with consistent optional columns it succeeds, keeps the bounds, and
   * what is out plus what is pending is still exactly what came in, row by row.
   */
  lemma CallCollates(target: nat, shape: Shape, r: Run, op: Op)
    requires target > 0 && Collates(target, shape, r) && (op.Add? ==> Conforms(op.batch, shape))
    ensures op.Add? ==> op.batch.source.Some?
    ensures var f := Flushes(target, r.sources, op);
      && Grouped(f.groups) && Outputs(f.groups).Some?
      && Collates(target, shape,
                  Run(f.sources, r.inputs + (if op.Add? then [op.batch] else []), r.outputs + Outputs(f.groups).value))
  {
    if op.Add? { DecodedSource(op.batch); }
    hide Conforms, Bounded, Flushes, Outputs, RowsFor, All, Flat, Only, Merge, Decoded, Grouped, AllDecoded, AllConform;
    CallConforms(target, shape, r, op);
    forall cpu, signal
      ensures CallKeeps(target, r, op, cpu, signal)
    {
      CallRows(target, r, op, cpu, signal);
    }
    KeptRows(target, r, op);
  }

  ghost predicate CallKeeps(target: nat, r: Run, op: Op, cpu: Cpu, signal: Signal)
    requires op.Add? ==> op.batch.source.Some?
  {
    var f, more := Flushes(target, r.sources, op), if op.Add? then [op.batch] else [];
    && Grouped(f.groups) && Outputs(f.groups).Some? && AllDecoded(All(f.sources))
    && AllDecoded(r.inputs + more) && AllDecoded(r.outputs + Outputs(f.groups).value)
    && RowsFor(r.outputs + Outputs(f.groups).value, cpu, signal) + RowsFor(All(f.sources), cpu, signal) ==
         RowsFor(r.inputs + more, cpu, signal)
  }

  lemma KeptRows(target: nat, r: Run, op: Op)
    requires op.Add? ==> op.batch.source.Some?
    requires forall cpu, signal :: CallKeeps(target, r, op, cpu, signal)
    ensures var f, more := Flushes(target, r.sources, op), if op.Add? then [op.batch] else [];
      && Grouped(f.groups) && Outputs(f.groups).Some? && AllDecoded(All(f.sources))
      && AllDecoded(r.inputs + more) && AllDecoded(r.outputs + Outputs(f.groups).value)
      && forall cpu, signal ::
           RowsFor(r.outputs + Outputs(f.groups).value, cpu, signal) + RowsFor(All(f.sources), cpu, signal) ==
             RowsFor(r.inputs + more, cpu, signal)
  {
    hide Flushes, Outputs, RowsFor, All, Decoded;
    assert CallKeeps(target, r, op, Cpu(0, 0), Blocks);
    forall cpu, signal
      ensures var f, more := Flushes(target, r.sources, op), if op.Add? then [op.batch] else [];
        RowsFor(r.outputs + Outputs(f.groups).value, cpu, signal) + RowsFor(All(f.sources), cpu, signal) ==
          RowsFor(r.inputs + more, cpu, signal)
    {
      assert CallKeeps(target, r, op, cpu, signal);
    }
  }

  lemma CallConforms(target: nat, shape: Shape, r: Run, op: Op)
    requires target > 0 && Bounded(target, r.sources) && AllConform(All(r.sources), shape)
    requires op.Add? ==> Conforms(op.batch, shape) && op.batch.source.Some?
    ensures var f := Flushes(target, r.sources, op);
      && Bounded(target, f.sources) && Grouped(f.groups) && Outputs(f.groups).Some?
      && AllConform(All(f.sources), shape) && AllDecoded(All(f.sources))
    ensures op.Add? ==> Decoded(op.batch)
  {
    if op.Add? { assert Decoded(op.batch); }
    hide Conforms, Bounded, Flushes, Outputs, All, Flat, Only, Merge, Decoded;
    var f := Flushes(target, r.sources, op);
    FlushedGroups(target, r.sources, op);
    BoundedFacts(target, f.sources);
    FlatDecoded(f.groups);
    forall x | x in Flat(f.groups) || x in All(f.sources) ensures Conforms(x, shape) {
      HasSource(Flat(f.groups), All(f.sources), x);
      OnlyOld(target, r.sources, op, x);
    }
    hide Grouped;
    GroupsMerge(f.groups, shape);
  }

  lemma HasSource(a: seq<Batch>, b: seq<Batch>, x: Batch)
    requires AllDecoded(a) && AllDecoded(b) && (x in a || x in b)
    ensures x.source.Some?
  {
  }

  lemma BoundedFacts(target: nat, sources: seq<Pending>)
    requires Bounded(target, sources)
    ensures AllDecoded(All(sources))
  {
    hide Decoded, All;
    AllFacts(sources);
  }

  lemma CallRows(target: nat, r: Run, op: Op, cpu: Cpu, signal: Signal)
    requires target > 0 && Bounded(target, r.sources) && (op.Add? ==> Decoded(op.batch) && op.batch.source.Some?)
    requires AllDecoded(r.inputs) && AllDecoded(r.outputs) && AllDecoded(All(r.sources))
    requires RowsFor(r.outputs, cpu, signal) + RowsFor(All(r.sources), cpu, signal) == RowsFor(r.inputs, cpu, signal)
    requires var f := Flushes(target, r.sources, op);
      Grouped(f.groups) && Outputs(f.groups).Some? && AllDecoded(All(f.sources))
    ensures CallKeeps(target, r, op, cpu, signal)
  {
    hide Bounded, Flushes, Outputs, RowsFor, All, Flat, Only, Decoded;
    var f, more := Flushes(target, r.sources, op), if op.Add? then [op.batch] else [];
    OutputRows(f.groups, cpu, signal);
    RowsForConcat(r.outputs, Outputs(f.groups).value, cpu, signal);
    RowsForConcat(r.inputs, more, cpu, signal);
    FlushConserves(target, r.sources, op, cpu);
    SameRowsFor(Flat(f.groups), All(f.sources), All(r.sources), more, cpu, signal);
    var o, p := RowsFor(r.outputs, cpu, signal), RowsFor(Flat(f.groups), cpu, signal);
    var q, n := RowsFor(All(f.sources), cpu, signal), RowsFor(more, cpu, signal);
    assert o + p + q == o + (p + q);
    assert o + (RowsFor(All(r.sources), cpu, signal) + n) == o + RowsFor(All(r.sources), cpu, signal) + n;
  }

  lemma SameRowsFor(a: seq<Batch>, b: seq<Batch>, c: seq<Batch>, d: seq<Batch>, cpu: Cpu, signal: Signal)
    requires AllDecoded(a) && AllDecoded(b) && AllDecoded(c) && AllDecoded(d)
    requires Only(a, cpu) + Only(b, cpu) == Only(c, cpu) + Only(d, cpu)
    ensures RowsFor(a, cpu, signal) + RowsFor(b, cpu, signal) == RowsFor(c, cpu, signal) + RowsFor(d, cpu, signal)
  {
    hide Only, RowsOfAll, Decoded;
    OnlyDecoded(a, cpu);
    OnlyDecoded(b, cpu);
    OnlyDecoded(c, cpu);
    OnlyDecoded(d, cpu);
    RowsConcatAll(Only(a, cpu), Only(b, cpu), signal);
    RowsConcatAll(Only(c, cpu), Only(d, cpu), signal);
  }

  /** A list of calls from an empty collator. */
  ghost function Calls(target: nat, ops: seq<Op>): Option<Run>
    requires target > 0 && forall i :: 0 <= i < |ops| && ops[i].Add? ==> ops[i].batch.source.Some?
  {
    if ops == [] then Some(Run([], [], []))
    else
      var op := ops[|ops| - 1];
      match Calls(target, ops[..|ops| - 1])
      case None => None
      case Some(r) =>
        var f := Flushes(target, r.sources, op);
        if !Grouped(f.groups) || Outputs(f.groups).None? then None
        else Some(Run(f.sources, r.inputs + (if op.Add? then [op.batch] else []), r.outputs + Outputs(f.groups).value))
  }

  /** Every sequence of calls on conforming batches. */
  lemma {:induction false} RunCollates(target: nat, shape: Shape, ops: seq<Op>)
    requires target > 0
    requires forall i :: 0 <= i < |ops| && ops[i].Add? ==> Conforms(ops[i].batch, shape) && ops[i].batch.source.Some?
    ensures Calls(target, ops).Some? && Collates(target, shape, Calls(target, ops).value)
  {
    hide Conforms, Flushes, Outputs, RowsFor, All, Merge;
    if ops == [] {
      NothingPending();
      NoSources();
      assert forall cpu, signal ::
        RowsFor([], cpu, signal) + RowsFor(All([]), cpu, signal) == RowsFor([], cpu, signal) by {
        NoRows();
      }
    } else {
      RunCollates(target, shape, ops[..|ops| - 1]);
      hide Collates, Grouped;
      CallCollates(target, shape, Calls(target, ops[..|ops| - 1]).value, ops[|ops| - 1]);
    }
  }

  lemma NoRows()
    ensures forall cpu, signal :: RowsFor([], cpu, signal) == []
  {
  }
}
