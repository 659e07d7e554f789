/**
The reduced capture in the plugin's own form: per-vCPU counters updated at every
block, context rows appended to the vCPU's buffer, and the publication loop that
seals the capture. Each step is the step of `ReducedCapture`.
*/
module ReducedSources {
  import opened Words
  import opened Wire
  import opened Transitions
  import opened WindowReducer
  import opened WindowFrames
  import opened Validator
  import opened RowBatches
  import opened Contexts
  import opened ReductionPublication
  import opened SourceBuffer
  import WindowPublisher

  /** The counters of one vCPU that its summary reports. */
  datatype Counters = Counters(blocks: nat, changes: nat, contexts: nat, overflow: nat)

  /** The counters a list of block entries leaves. */
  function CountersOf(entries: seq<Entry>, capacity: nat): Counters {
    var n := |Changes(entries)|;
    Counters(|entries|, n, Min(n, capacity), n - Min(n, capacity))
  }

  predicate Differs(entries: seq<Entry>, entry: Entry) {
    entries == [] || entry.context != entries[|entries| - 1].context
  }

  class ReducedSource {
    const capacity: nat
    const known: nat
    const buffer: Buffer
    var counters: Counters
    var context: Context
    var sampled: bool
    ghost var entries: seq<Entry>

    ghost predicate Valid()
      reads this, buffer, buffer.bytes
    {
      && buffer.Valid() && !buffer.mixed && 0 < capacity <= MAX_TRANSITION_SLOTS
      && counters == CountersOf(entries, capacity) && |entries| <= MAX64
      && (sampled <==> entries != []) && (sampled ==> context == entries[|entries| - 1].context)
      && buffer.next == counters.contexts
    }

    constructor (index: nat, capacity: nat, known: nat)
      requires 0 < capacity <= MAX_TRANSITION_SLOTS
      ensures Valid() && entries == [] && this.capacity == capacity && this.known == known
      ensures buffer.View() == Batch(Blocks, 0, []) && buffer.published == [] && buffer.index == index
    {
      this.capacity, this.known := capacity, known;
      buffer := new Buffer(index, false);
      counters, context, sampled, entries := Counters(0, 0, 0, 0), Context(0, 0, 0, 0, 0, 0), false, [];
    }

    /**
     * A recorded block: counts it, and counts and perhaps retains a context
     * change. Only the block counter can ever be full; the change counter, the
     * overflow counter and the row sequence cannot.
     */
    method RecordBlock(entry: Entry) returns (ok: bool)
      requires Valid()
      modifies this, buffer, buffer.bytes
      ensures ok <==> |old(entries)| < MAX64
      ensures ok ==> Valid() && entries == old(entries) + [entry]
      ensures ok ==> var retains := Differs(old(entries), entry) && |Changes(old(entries))| < capacity;
        var item := Item(ReducedContext, ContextBytes(|old(entries)|, entry, known));
        && buffer.View() == (if retains then Joining(old(buffer.View()), false, item) else old(buffer.View()))
        && buffer.published == old(buffer.published) +
             (if retains then OnWire(Emitted(buffer.index, old(buffer.View()), false, item)) else [])
    {
      hide Joining, Emitted, OnWire, ContextBytes, Buffer.Valid, Changes, Differs;
      ghost var before := entries;
      ChangesMeaning(before);
      Difference(before, entry);
      var retains: bool;
      ok, counters, retains := Count(counters, sampled && context == entry.context, capacity, before, entry);
      if !ok { return; }
      entries := entries + [entry];
      context := entry.context;
      sampled := true;
      if retains {
        var item := Item(ReducedContext, ContextBytes(counters.blocks - 1, entry, known));
        RowFits(item, buffer.View());
        var stored := buffer.Append(item);
        assert stored;
      }
    }
  }

  /** The counter updates of one block; `same` says the context did not change. */
  method Count(k: Counters, same: bool, capacity: nat, ghost entries: seq<Entry>, ghost entry: Entry)
    returns (ok: bool, after: Counters, retains: bool)
    requires k == CountersOf(entries, capacity) && |entries| <= MAX64 && same == !Differs(entries, entry)
    requires |Changes(entries)| <= |entries|
    ensures ok <==> |entries| < MAX64
    ensures ok ==> after == CountersOf(entries + [entry], capacity)
    ensures ok ==> retains == (Differs(entries, entry) && |Changes(entries)| < capacity)
    ensures ok ==> after.contexts == k.contexts + if retains then 1 else 0
  {
    hide Changes;
    ChangesStep(entries, entry);
    after, retains, ok := k, false, true;
    if k.blocks == MAX64 { return false, k, false; }
    after := after.(blocks := after.blocks + 1);
    if same { return; }
    if after.changes == MAX64 {
      assert false;
    }
    after := after.(changes := after.changes + 1);
    if after.contexts < capacity {
      after := after.(contexts := after.contexts + 1);
      retains := true;
    } else {
      if after.overflow == MAX64 {
        assert false;
      }
      after := after.(overflow := after.overflow + 1);
    }
  }

  lemma Difference(entries: seq<Entry>, entry: Entry)
    ensures Differs(entries, entry) <==> !(entries != [] && entries[|entries| - 1].context == entry.context)
  {
  }

  lemma RowFits(item: Item, b: Batch)
    requires item.kind == ReducedContext && |item.data| == REDUCED_CONTEXT_BYTES
    ensures RowBatches.Fits(false, item) && Joining(b, false, item).next == b.next + 1
  {
    hide Joins;
  }

  /**
   * Ends and closes the reducer's only window and builds every report. The
   * consistency checks between the two sets of counters never fail.
   */
  method Publish(reducer: WindowReducer.TransitionWindow, captured: seq<Counters>, ghost c: Capture)
    returns (ok: bool, frames: seq<Frame>)
    requires reducer.Valid() && reducer.phase == Recording && reducer.window == 1
    requires reducer.View() == Window(c).(phase := Recording)
    requires |captured| == |c.entries|
    requires forall i :: 0 <= i < |captured| ==> captured[i] == CountersOf(c.entries[i], c.capacity)
    modifies reducer`phase
    ensures ok <==> TotalObserved(Window(c).blocks) <= MAX64
    ensures ok ==> frames == Reports(c, |c.entries|)
  {
    hide WindowSource.Valid, Rows, Pairs, Configurable, TotalObserved, Closing, CountersOf, SourceReport, Window;
    WholeWindow(c);
    frames := [];
    var ended := reducer.End();
    assert ended && reducer.View() == Window(c);
    var reduction: Summary;
    ok, reduction := reducer.Close();
    if !ok { return; }
    if reduction.status != WindowEnded || reduction.id != 1 || reduction.sources != |captured| {
      assert false;
    }
    var source := 0;
    while source < reduction.sources
      invariant source <= reduction.sources && reducer.Valid() && reducer.View() == Window(c).(phase := Idle)
      invariant frames == Reports(c, source) && ok
    {
      var more := Report(reducer, source, reduction, captured[source], c);
      frames := frames + more;
      source := source + 1;
    }
  }

  /** The rows and the summary of one vCPU. */
  method Report(reducer: WindowReducer.TransitionWindow, source: nat, reduction: Summary, own: Counters,
                ghost c: Capture)
    returns (frames: seq<Frame>)
    requires reducer.Valid() && reducer.View() == Window(c).(phase := Idle) && source < |c.entries|
    requires reduction.id == 1 && reduction.sources == |c.entries| && reduction.capacity == c.capacity
    requires own == CountersOf(c.entries[source], c.capacity)
    ensures frames == SourceReport(c, source)
  {
    hide reducer.Valid, Rows, Pairs, SourceFrames, ReductionBytes, Changes, Overflow;
    assert reducer.Blocks() == Window(c).blocks && reducer.window == 1 && reducer.capacity == c.capacity;
    var summary := reducer.SourceSummary(source, reduction.id);
    if summary.1 != (if own.blocks == 0 then 0 else own.blocks - 1) || own.contexts + own.overflow != own.changes {
      assert false;
    }
    frames := WindowPublisher.PublishSource(reducer, source, reduction.id);
    var r := Reduction(reduction.sources, reduction.capacity, reducer.capacity, 0, own.blocks, summary.1, summary.0,
                       summary.2, own.changes, own.contexts, own.overflow);
    assert r == SummaryOf(c, source);
    frames := frames + [Frame(Header(ObservationSummary, source, 1, 0, SUMMARY_BYTES, VERSION), ReductionBytes(r))];
  }

  lemma WholeWindow(c: Capture)
    ensures var m := Window(c);
      && |m.blocks| == |c.entries| && m.phase == Ended && m.window == 1
      && Closing(m).status == WindowEnded && Closing(m).id == 1
      && Closing(m).sources == |c.entries| && Closing(m).capacity == c.capacity
  {
    hide TotalDistinct, TotalObserved, TotalOverflow;
  }
}
