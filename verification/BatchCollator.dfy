/** `merge_batches` and the collator object in the source's own form, proved against `Collation` and `CollatorRuns`. */
module BatchCollator {
  import opened Words
  import opened Batches
  import opened Collation
  import opened CollatorRuns

  // ---------------------------------------------------------------- merging

  /** Concatenates a column present everywhere; fails if it is present only somewhere. */
  method OptionalColumn(parts: seq<Part>, c: nat) returns (ok: bool, column: Column)
    requires parts != [] && forall i :: 0 <= i < |parts| ==> c < |parts[i].table.columns|
    ensures ok <==> Uniform(parts, c)
    ensures ok ==> column == MergedColumn(parts, c)
  {
    var missing, present := false, false;
    var joined: seq<nat> := [];
    for i := 0 to |parts|
      invariant missing <==> exists j :: 0 <= j < i && parts[j].table.columns[c].None?
      invariant present <==> exists j :: 0 <= j < i && parts[j].table.columns[c].Some?
      invariant !missing ==> joined == ConcatColumn(parts[..i], c)
    {
      if parts[i].table.columns[c].None? {
        missing := true;
      } else {
        present := true;
        joined := joined + parts[i].table.columns[c].value;
      }
      assert parts[..i + 1][..i] == parts[..i];
    }
    assert parts[..|parts|] == parts;
    if missing && present { return false, None; }
    return true, if missing then None else Some(joined);
  }

  /** The padding loop over tables of different widths. */
  method PaddedValues(parts: seq<Part>, width: nat) returns (values: seq<seq<byte>>)
    ensures values == ConcatValues(parts, width)
  {
    values := [];
    for i := 0 to |parts|
      invariant values == ConcatValues(parts[..i], width)
    {
      var own := parts[i].table.values;
      var rows: seq<seq<byte>> := [];
      for k := 0 to |own|
        invariant rows == PadAll(own[..k], width)
      {
        rows := rows + [Pad(own[k], width)];
        assert PadAll(own[..k + 1], width) == PadAll(own[..k], width) + [Pad(own[k], width)];
      }
      assert own[..|own|] == own;
      values := values + rows;
      assert parts[..i + 1][..i] == parts[..i];
    }
    assert parts[..|parts|] == parts;
  }

  method JoinedSequences(parts: seq<Part>) returns (sequences: seq<nat>)
    requires forall i :: 0 <= i < |parts| ==> parts[i].table.columns != [] && parts[i].table.columns[0].Some?
    ensures sequences == ConcatSequences(parts)
  {
    sequences := [];
    for i := 0 to |parts|
      invariant sequences == ConcatSequences(parts[..i])
    {
      sequences := sequences + RowSequences(parts[i].first, parts[i].table);
      assert parts[..i + 1][..i] == parts[..i];
    }
    assert parts[..|parts|] == parts;
  }

  /** One table for all parts. */
  method MergeTables(parts: seq<Part>, registers: bool) returns (r: Option<Table>)
    requires Parts(parts, registers)
    ensures r.Some? <==> Consistent(parts)
    ensures r.Some? ==> r.value == MergedTable(parts, registers)
  {
    hide ConcatColumn, ConcatValues, ConcatSequences;
    var count := |parts[0].table.columns|;
    var columns: seq<Column> := [];
    for c := 0 to count
      invariant |columns| == c
      invariant forall k :: 0 <= k < c ==> Uniform(parts, k) && columns[k] == MergedColumn(parts, k)
    {
      var ok, column := OptionalColumn(parts, c);
      if !ok { return None; }
      columns := columns + [column];
    }
    assert Consistent(parts);
    var sequences := JoinedSequences(parts);
    var last := parts[|parts| - 1].table;
    var values, width := last.values, last.width;
    if registers {
      width := MaxWidth(parts);
      values := PaddedValues(parts, width);
    }
    r := Some(Table(columns, values, width, last.names, Some(sequences)));
    assert r.value.columns == MergedTable(parts, registers).columns;
  }

  /** The batches that have the table. */
  method SelectParts(bs: seq<Batch>, signal: Signal) returns (parts: seq<Part>)
    requires forall i :: 0 <= i < |bs| ==> bs[i].first.Some?
    ensures parts == PartsOf(bs, signal)
  {
    parts := [];
    for i := 0 to |bs|
      invariant parts == PartsOf(bs[..i], signal)
    {
      var table := TableOf(bs[i], signal);
      if table.Some? { parts := parts + [Part(bs[i].first.value, table.value)]; }
      assert bs[..i + 1][..i] == bs[..i];
    }
    assert bs[..|bs|] == bs;
  }

  method MergeSignal(bs: seq<Batch>, signal: Signal) returns (ok: bool, t: Option<Table>)
    requires AllDecoded(bs)
    ensures ok <==> Mergeable(bs, signal)
    ensures ok ==> t == MergedSignal(bs, signal)
  {
    forall i | 0 <= i < |bs| ensures bs[i].first.Some? { DecodedSource(bs[i]); }
    hide Decoded, MergedTable, Consistent, PartsOf;
    PartsFormed(bs, signal);
    var parts := SelectParts(bs, signal);
    if parts == [] { return true, None; }
    t := MergeTables(parts, signal == Registers);
    ok := t.Some?;
  }

  /** `merge_batches`: fails exactly when CPUs or optional columns disagree. */
  method MergeBatches(bs: seq<Batch>) returns (r: Option<Batch>)
    requires bs != [] && AllDecoded(bs)
    ensures r == Merge(bs)
  {
    forall i | 0 <= i < |bs| ensures bs[i].source.Some? { DecodedSource(bs[i]); }
    hide Decoded, MergedSignal, Mergeable;
    for i := 0 to |bs|
      invariant forall j :: 0 <= j < i ==> CpuOf(bs[j]) == CpuOf(bs[0])
    {
      if CpuOf(bs[i]) != CpuOf(bs[0]) { return None; }
    }
    var first := bs[0];
    var ok, blocks := MergeSignal(bs, Blocks);
    if !ok { return None; }
    var registers, memory, context: Option<Table>;
    ok, registers := MergeSignal(bs, Registers);
    if !ok { return None; }
    ok, memory := MergeSignal(bs, Memory);
    if !ok { return None; }
    ok, context := MergeSignal(bs, Context);
    if !ok { return None; }
    assert forall signal :: Mergeable(bs, signal) by {
      forall signal ensures Mergeable(bs, signal) {
        match signal { case Blocks => case Registers => case Memory => case Context => }
      }
    }
    r := Some(first.(
      addresses := if blocks.Some? && blocks.value.columns != [] && blocks.value.columns[0].Some?
                   then blocks.value.columns[0].value else first.addresses,
      blockSequences := if blocks.Some? then blocks.value.sequences else None,
      registers := registers, memory := memory, context := context));
  }

  // ---------------------------------------------------------------- the collator

  class Collator {
    const target: nat
    var pendingBytes: nat
    var pendingFrames: nat
    var sources: seq<Pending>     // a dictionary in insertion order

    /** The counters are the sums over the pending sources. */
    ghost predicate Counted()
      reads this
    {
      1 <= target <= MAX_BATCH_BYTES && Sound(sources) && pendingBytes == SumSizes(sources) &&
        pendingFrames == SumFrames(sources)
    }

    ghost predicate Valid()
      reads this
    {
      Counted() && Bounded(target, sources)
    }

    constructor (target: nat)
      requires 1 <= target <= MAX_BATCH_BYTES
      ensures Valid() && sources == [] && this.target == target
    {
      this.target := target;
      pendingBytes, pendingFrames, sources := 0, 0, [];
    }

    /** Takes one source out and merges what it held. */
    method FlushAt(i: nat) returns (r: Option<Batch>)
      requires Counted() && i < |sources|
      modifies this`pendingBytes, this`pendingFrames, this`sources
      ensures Counted() && sources == Without(old(sources), i)
      ensures AllDecoded(old(sources)[i].batches) && old(sources)[i].batches != []
      ensures r == Merge(old(sources)[i].batches)
    {
      hide Merge, SumSizes, SumFrames;
      var pending := sources[i];
      assert Own(pending);
      hide Own;
      SumSplit(sources, i);
      WithoutSound(sources, i);
      sources := sources[..i] + sources[i + 1..];
      pendingBytes := pendingBytes - pending.size;
      pendingFrames := pendingFrames - |pending.batches|;
      r := MergeBatches(pending.batches);
    }

    /** The flush loop over the oldest sources; it ends because every turn removes one. */
    method TrimPending() returns (ok: bool, ready: seq<Batch>)
      requires Counted()
      modifies this`pendingBytes, this`pendingFrames, this`sources
      ensures Grouped(Trim(target, old(sources)).groups)
      ensures ok <==> Outputs(Trim(target, old(sources)).groups).Some?
      ensures ok ==> Counted() && sources == Trim(target, old(sources)).sources
                     && ready == Outputs(Trim(target, old(sources)).groups).value
    {
      hide Merge, SumSizes, SumFrames, Own, Sound, Grouped, Outputs, Trim;
      ghost var whole := Trim(target, sources);
      TrimGroups(target, sources);
      ghost var done: seq<seq<Batch>> := [];
      ready := [];
      NoOutputs();
      TrimIdle(target, sources);
      assert [] + whole.groups == whole.groups;
      while sources != [] && (pendingBytes >= 2 * target || pendingFrames >= MAX_PENDING_FRAMES)
        invariant Counted() && whole == Flush(Trim(target, sources).sources, done + Trim(target, sources).groups)
        invariant Grouped(whole.groups) && Grouped(done) && Outputs(done) == Some(ready)
        decreases |sources|
      {
        ghost var before := sources;
        ghost var group := before[0].batches;
        TrimNext(target, before, done);
        TrimPrefix(whole.groups, done + [group]);
        LastGroup(done, group);
        var batch := FlushAt(0);
        OutputsAppend(done, group);
        assert Without(before, 0) == before[1..];
        if batch.None? {
          OutputsStuck(whole.groups, done + [group]);
          return false, [];
        }
        ready := ready + [batch.value];
        done := done + [group];
      }
      TrimIdle(target, sources);
      assert done + [] == done;
      ok := true;
    }

    /** The batch joins its CPU's pending batches. */
    method Join(batch: Batch) returns (i: nat)
      requires Counted() && Decoded(batch) && batch.source.Some?
      modifies this`pendingBytes, this`pendingFrames, this`sources
      ensures Counted() && sources == Joined(old(sources), CpuOf(batch), batch)
      ensures i == Find(sources, CpuOf(batch)) < |sources|
    {
      hide Decoded, Own, SumSizes, SumFrames, TensorBytes;
      var cpu, size := CpuOf(batch), TensorBytes(batch);
      JoinedSound(sources, cpu, batch);
      JoinedSums(sources, cpu, batch);
      i := Find(sources, cpu);
      if i == |sources| {
        sources := sources + [Pending(cpu, [], 0)];
      }
      var pending := sources[i];
      sources := sources[i := Pending(cpu, pending.batches + [batch], pending.size + size)];
      pendingBytes := pendingBytes + size;
      pendingFrames := pendingFrames + 1;
      assert sources == Joined(old(sources), cpu, batch) by {
        if i == |old(sources)| {
          assert [] + [batch] == [batch];
          assert sources == old(sources) + [Pending(cpu, [batch], size)];
        }
      }
    }

    /**
     * `add`: special batches pass through, unusable ones are refused without any
     * change, and otherwise the call flushes exactly the groups `Added` says.
     */
    method Add(batch: Batch) returns (ok: bool, ready: seq<Batch>)
      requires Valid() && (Collatable(batch) ==> Decoded(batch))
      modifies this`pendingBytes, this`pendingFrames, this`sources
      ensures batch.special ==> ok && ready == [batch] && sources == old(sources) && Valid()
      ensures !batch.special && !Collatable(batch) ==> !ok && sources == old(sources) && Valid()
      ensures Collatable(batch) ==>
        var f := Added(target, old(sources), CpuOf(batch), batch);
        && Grouped(f.groups) && (ok <==> Outputs(f.groups).Some?)
        && (ok ==> Valid() && sources == f.sources && ready == Outputs(f.groups).value)
    {
      hide Merge, SumSizes, SumFrames, Own, Sound, Grouped, Outputs, Trim, Joined, TensorBytes, Decoded;
      if batch.special { return true, [batch]; }
      if batch.source.None? || batch.first.None? { return false, []; }
      if batch.addresses == [] && Empty(batch.registers) && Empty(batch.memory) &&
        Empty(batch.context) { return false, []; }
      ghost var before, cpu := sources, CpuOf(batch);
      AddedBounds(target, sources, cpu, batch);
      FlushedGroups(target, sources, CollatorRuns.Add(batch));
      var i := Join(batch);
      ghost var joined := sources;
      ready := [];
      ghost var grown := FlushGrown(target, joined, cpu);
      GrownFirst(target, before, cpu, batch);
      NoOutputs();
      if sources[i].size >= target || |sources[i].batches| >= MAX_SOURCE_FRAMES {
        var first := FlushAt(i);
        OneOutput(joined[i].batches, grown.groups);
        if first.None? {
          GrownStuck(grown.groups, Trim(target, grown.sources).groups);
          return false, [];
        }
        ready := [first.value];
      }
      var more: seq<Batch>;
      ok, more := TrimPending();
      OutputsConcat(grown.groups, Trim(target, grown.sources).groups);
      if ok { ready := ready + more; }
    }

    /** Everything pending of one CPU. */
    method End(cpu: Cpu) returns (ok: bool, ready: seq<Batch>)
      requires Valid()
      modifies this`pendingBytes, this`pendingFrames, this`sources
      ensures var f := Flushes(target, old(sources), EndSource(cpu));
        && Grouped(f.groups) && (ok <==> Outputs(f.groups).Some?)
        && (ok ==> Valid() && sources == f.sources && ready == Outputs(f.groups).value)
    {
      hide Merge, SumSizes, SumFrames, Own, Sound, Grouped, Outputs, Without;
      NoOutputs();
      FlushedGroups(target, sources, EndSource(cpu));
      var i := Find(sources, cpu);
      if i == |sources| { return true, []; }
      ghost var group := sources[i].batches;
      var batch := FlushAt(i);
      OneOutput(group, [group]);
      if batch.None? { return false, []; }
      return true, [batch.value];
    }

    /** Everything pending, oldest source first. */
    method FinishAll() returns (ok: bool, ready: seq<Batch>)
      requires Valid()
      modifies this`pendingBytes, this`pendingFrames, this`sources
      ensures Grouped(Groups(old(sources))) && (ok <==> Outputs(Groups(old(sources))).Some?)
      ensures ok ==> Valid() && sources == [] && ready == Outputs(Groups(old(sources))).value
    {
      hide Merge, SumSizes, SumFrames, Own, Sound, Grouped, Outputs, Groups;
      FlushedGroups(target, sources, Finish);
      ghost var all, done := Groups(sources), 0;
      ghost var before := sources;
      ready := [];
      NoOutputs();
      NoSources();
      assert all[..0] == [];
      while sources != []
        invariant Counted() && done <= |before| && sources == before[done..] && |all| == |before|
        invariant Grouped(all) && Grouped(all[..done]) && Outputs(all[..done]) == Some(ready)
        decreases |sources|
      {
        ghost var group := sources[0].batches;
        ghost var was := sources;
        assert all[done] == group && all[..done + 1] == all[..done] + [group];
        TrimPrefix(all, all[..done + 1]);
        LastGroup(all[..done], group);
        var batch := FlushAt(0);
        OutputsAppend(all[..done], group);
        assert Without(was, 0) == before[done + 1..];
        if batch.None? {
          OutputsStuck(all, all[..done + 1]);
          return false, [];
        }
        ready := ready + [batch.value];
        done := done + 1;
      }
      assert all[..done] == all;
      ok := true;
    }
  }

  /** A target outside 1 byte to 4 MiB is refused. */
  method NewCollator(target: nat) returns (c: Collator?)
    ensures c != null <==> 1 <= target <= MAX_BATCH_BYTES
    ensures c != null ==> fresh(c) && c.Valid() && c.sources == [] && c.target == target
  {
    if !(1 <= target <= MAX_BATCH_BYTES) { return null; }
    c := new Collator(target);
  }

  predicate Empty(t: Option<Table>) {
    t.None? || t.value.columns == [] || t.value.columns[0].None? || t.value.columns[0].value == []
  }

  /** A CPU batch with at least one row. */
  predicate Collatable(b: Batch) {
    && !b.special && b.source.Some? && b.first.Some?
    && !(b.addresses == [] && Empty(b.registers) && Empty(b.memory) && Empty(b.context))
  }

  lemma {:induction false} JoinedSums(sources: seq<Pending>, cpu: Cpu, b: Batch)
    ensures SumSizes(Joined(sources, cpu, b)) == SumSizes(sources) + TensorBytes(b)
    ensures SumFrames(Joined(sources, cpu, b)) == SumFrames(sources) + 1
    ensures Find(Joined(sources, cpu, b), cpu) == Find(sources, cpu)
  {
    hide TensorBytes;
    var i, joined := Find(sources, cpu), Joined(sources, cpu, b);
    if i == |sources| {
      assert joined[..|sources|] == sources;
    } else {
      SumSplit(sources, i);
      SumSplit(joined, i);
      assert Without(joined, i) == Without(sources, i);
    }
  }

  lemma OneOutput(group: seq<Batch>, groups: seq<seq<Batch>>)
    requires groups == [group] && Grouped(groups)
    ensures group != [] && AllDecoded(group)
    ensures Outputs(groups) == if Merge(group).None? then None else Some([Merge(group).value])
  {
    hide Merge, Decoded;
    NoOutputs();
    assert [] + [group] == groups;
    LastGroup([], group);
    OutputsAppend([], group);
    if Merge(group).Some? { assert [] + [Merge(group).value] == [Merge(group).value]; }
  }

  /** The source that grew is flushed first, then the oldest ones. */
  lemma GrownFirst(target: nat, sources: seq<Pending>, cpu: Cpu, b: Batch)
    requires target > 0 && Bounded(target, sources) && Decoded(b) && b.source.Some? && CpuOf(b) == cpu
    ensures var grown := FlushGrown(target, Joined(sources, cpu, b), cpu);
      Grouped(grown.groups) && Sound(grown.sources) && Grouped(Trim(target, grown.sources).groups)
  {
    hide Decoded, Own, TensorBytes, SumSizes, SumFrames, Trim, Joined;
    JoinedSound(sources, cpu, b);
    var joined := Joined(sources, cpu, b);
    AllFacts(joined);
    var i := Find(joined, cpu);
    if i < |joined| { WithoutSound(joined, i); }
    TrimGroups(target, FlushGrown(target, joined, cpu).sources);
  }

  lemma GrownStuck(a: seq<seq<Batch>>, b: seq<seq<Batch>>)
    requires Grouped(a) && Grouped(b) && Outputs(a).None?
    ensures Grouped(a + b) && Outputs(a + b).None?
  {
    OutputsConcat(a, b);
  }

  lemma {:induction false} OutputsConcat(a: seq<seq<Batch>>, b: seq<seq<Batch>>)
    requires Grouped(a) && Grouped(b)
    ensures Grouped(a + b)
    ensures Outputs(a + b) ==
      if Outputs(a).None? || Outputs(b).None? then None else Some(Outputs(a).value + Outputs(b).value)
  {
    hide Merge, Decoded;
    if b == [] {
      assert a + b == a;
      NoOutputs();
      if Outputs(a).Some? { assert Outputs(a).value + [] == Outputs(a).value; }
    } else {
      var front, last := b[..|b| - 1], b[|b| - 1];
      OutputsConcat(a, front);
      hide Outputs;
      assert b == front + [last] && a + b == (a + front) + [last];
      LastGroup(front, last);
      OutputsAppend(front, last);
      OutputsAppend(a + front, last);
      if Outputs(a).Some? && Outputs(front).Some? && Merge(last).Some? {
        var x, y, z := Outputs(a).value, Outputs(front).value, [Merge(last).value];
        assert x + y + z == x + (y + z);
      }
    }
  }

  lemma NoOutputs()
    ensures Outputs([]) == Some([]) && Grouped([])
  {
  }

  lemma TrimIdle(target: nat, sources: seq<Pending>)
    ensures sources == [] || (SumSizes(sources) < 2 * target && SumFrames(sources) < MAX_PENDING_FRAMES) ==>
      Trim(target, sources) == Flush(sources, [])
  {
  }

  lemma TrimNext(target: nat, sources: seq<Pending>, done: seq<seq<Batch>>)
    requires sources != [] && !(SumSizes(sources) < 2 * target && SumFrames(sources) < MAX_PENDING_FRAMES)
    ensures var f, rest := Trim(target, sources), Trim(target, sources[1..]);
      f.sources == rest.sources && done + f.groups == done + [sources[0].batches] + rest.groups
  {
    hide SumSizes, SumFrames;
    var rest := Trim(target, sources[1..]);
    assert done + ([sources[0].batches] + rest.groups) == done + [sources[0].batches] + rest.groups;
  }

  lemma TrimPrefix(groups: seq<seq<Batch>>, done: seq<seq<Batch>>)
    requires Grouped(groups) && done <= groups
    ensures Grouped(done)
  {
  }

  lemma LastGroup(done: seq<seq<Batch>>, group: seq<Batch>)
    requires Grouped(done + [group])
    ensures group != [] && AllDecoded(group) && SameCpu(group)
  {
    hide Decoded;
    assert (done + [group])[|done|] == group;
  }

  lemma OutputsAppend(groups: seq<seq<Batch>>, group: seq<Batch>)
    requires Grouped(groups) && group != [] && AllDecoded(group) && SameCpu(group)
    ensures var g := groups + [group];
      Grouped(g) && Outputs(g) ==
        if Outputs(groups).None? || Merge(group).None? then None else Some(Outputs(groups).value + [Merge(group).value])
  {
    hide Merge, Decoded;
    assert (groups + [group])[..|groups|] == groups;
  }

  /** A merge that fails fails the whole call. */
  lemma {:induction false} OutputsStuck(groups: seq<seq<Batch>>, done: seq<seq<Batch>>)
    requires Grouped(groups) && done <= groups && Grouped(done) && Outputs(done).None?
    ensures Outputs(groups).None?
    decreases |groups|
  {
    hide Merge, Decoded;
    if |done| < |groups| {
      var front := groups[..|groups| - 1];
      assert done <= front;
      OutputsStuck(front, done);
    } else {
      assert done == groups;
    }
  }
}
