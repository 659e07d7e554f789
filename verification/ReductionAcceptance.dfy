/**
Continuous reduction meets the validator: every flushed frame of retained
context rows, every transition row frame, every summary, every terminator and
the final Complete of a reduced capture are accepted.
*/
module ReductionAcceptance {
  import opened Words
  import opened Wire
  import opened Transitions
  import opened Validator
  import opened ValidatorRuns
  import opened RowBatches
  import opened Contexts
  import MixedTables

  /** A stream that takes the frames of a reduced capture. */
  ghost predicate Reducing(s: State) {
    && s.started && !s.finished && s.version == VERSION && (s.features.executableLayout ==> s.layoutSeen)
    && s.features.observationReduction && !s.features.transitionWindows && !s.features.stdio
    && !s.features.registers && !s.features.contextFilter
  }

  /** The validator has seen the first `n` retained context rows of a vCPU and nothing else of it. */
  ghost predicate Follows(source: Source, positions: seq<nat>, n: nat) {
    && n <= |positions| && source.next == source.reducedContexts == n
    && (source.hasReduced <==> n > 0) && (n > 0 ==> source.lastBlock == positions[n - 1])
    && !source.ended && !source.summarized && source.windowRows == 0 && source.reducedCounts == 0
  }

  // ---------------------------------------------------------------- one frame of context rows

  lemma ContextFields(b: seq<byte>, at: nat, position: nat, entry: Entry, known: nat)
    requires at + REDUCED_CONTEXT_BYTES <= |b| && position <= MAX64 && known <= MAX64
    requires b[at..at + REDUCED_CONTEXT_BYTES] == ContextBytes(position, entry, known)
    ensures U64(b, at) == position && U64(b, at + 48) == entry.context.csBase
    ensures U64(b, at + 56) == entry.context.mode && U64(b, at + 64) == known
  {
    hide Load, Bytes;
    Pow256Words();
    var row, c := b[at..at + REDUCED_CONTEXT_BYTES], entry.context;
    assert row[..8] == Bytes(position, 8);
    assert row[48..56] == Bytes(c.csBase, 8);
    assert row[56..64] == Bytes(c.mode, 8);
    assert row[64..] == Bytes(known, 8);
    hide ContextBytes;
    MixedTables.SubSlice(b, at, at + REDUCED_CONTEXT_BYTES, 0, 8);
    MixedTables.SubSlice(b, at, at + REDUCED_CONTEXT_BYTES, 48, 56);
    MixedTables.SubSlice(b, at, at + REDUCED_CONTEXT_BYTES, 56, 64);
    MixedTables.SubSlice(b, at, at + REDUCED_CONTEXT_BYTES, 64, 72);
    LoadStored(b, at, 8, position);
    LoadStored(b, at + 48, 8, c.csBase);
    LoadStored(b, at + 56, 8, c.mode);
    LoadStored(b, at + 64, 8, known);
  }

  lemma {:induction false} EqualRows(items: seq<Item>)
    requires forall i :: 0 <= i < |items| ==> |items[i].data| == REDUCED_CONTEXT_BYTES
    ensures |Joined(items)| == |items| * REDUCED_CONTEXT_BYTES
  {
    if items != [] { EqualRows(items[..|items| - 1]); }
  }

  lemma ReducedRowAt(items: seq<Item>, r: nat)
    requires forall i :: 0 <= i < |items| ==> |items[i].data| == REDUCED_CONTEXT_BYTES
    requires r < |items|
    ensures |Joined(items)| == |items| * REDUCED_CONTEXT_BYTES
    ensures Joined(items)[r * REDUCED_CONTEXT_BYTES..r * REDUCED_CONTEXT_BYTES + REDUCED_CONTEXT_BYTES] == items[r].data
  {
    hide Joined;
    EqualRows(items);
    EqualRows(items[..r]);
    EqualRows(items[..r + 1]);
    MixedTables.JoinedSlice(items, r);
  }

  /** A frame of retained rows `k..n` decodes to their positions and is valid row by row. */
  lemma ContextPayload(entries: seq<Entry>, capacity: nat, known: nat, k: nat, n: nat)
    requires k < n <= |Positions(entries, capacity)| && |entries| <= MAX64 && known <= MAX64
    requires forall e :: 0 <= e < |entries| ==> ValidMode(known, entries[e].context)
    ensures var b := Joined(ContextItems(entries, capacity, known)[k..n]);
      && |b| == (n - k) * REDUCED_CONTEXT_BYTES
      && forall r :: 0 <= r < n - k ==>
           ValidReducedRow(b, r) && ReducedBlock(b, r) == Positions(entries, capacity)[k + r]
  {
    hide Joined, Positions, ContextItems;
    var items := ContextItems(entries, capacity, known)[k..n];
    EqualRows(items);
    var b := Joined(items);
    forall r | 0 <= r < n - k
      ensures ValidReducedRow(b, r) && ReducedBlock(b, r) == Positions(entries, capacity)[k + r]
    {
      ReducedRowAt(items, r);
      ItemAt(entries, capacity, known, k + r);
      var p := Positions(entries, capacity)[k + r];
      ContextFields(b, r * REDUCED_CONTEXT_BYTES, p, entries[p], known);
      assert ValidMode(known, entries[p].context);
    }
  }

  /** The frame of retained rows `k..n` of vCPU `index`. */
  function ContextFrame(index: nat, entries: seq<Entry>, capacity: nat, known: nat, k: nat, n: nat): (f: Frame)
    requires k < n <= |Positions(entries, capacity)|
    ensures WellSized(f)
  {
    BatchFrame(index, Batch(ReducedContext, n, ContextItems(entries, capacity, known)[k..n]))
  }

  lemma FrameFields(index: nat, entries: seq<Entry>, capacity: nat, known: nat, k: nat, n: nat, f: Frame)
    requires k < n <= |Positions(entries, capacity)| && |entries| <= MAX64 && known <= MAX64
    requires forall e :: 0 <= e < |entries| ==> ValidMode(known, entries[e].context)
    requires f == ContextFrame(index, entries, capacity, known, k, n)
    ensures f.header == Header(ReducedContext, index, n - k, k, (n - k) * REDUCED_CONTEXT_BYTES, VERSION)
    ensures |f.payload| == (n - k) * REDUCED_CONTEXT_BYTES
    ensures forall r :: 0 <= r < n - k ==>
      ValidReducedRow(f.payload, r) && ReducedBlock(f.payload, r) == Positions(entries, capacity)[k + r]
  {
    hide Joined, Positions, ContextItems, ValidMode, ValidReducedRow, ReducedBlock;
    ContextPayload(entries, capacity, known, k, n);
  }

  /** The validator accepts it when it has seen exactly the rows before `k`. */
  lemma ContextFrameAccepted(s: State, index: nat, entries: seq<Entry>, capacity: nat, known: nat, k: nat, n: nat,
                             f: Frame)
    requires Reducing(s) && index < MAX_SOURCES && k < n <= |Positions(entries, capacity)| && n - k <= 56
    requires |entries| <= MAX64 && known <= MAX64 && capacity <= MAX_TRANSITION_SLOTS
    requires forall e :: 0 <= e < |entries| ==> ValidMode(known, entries[e].context)
    requires Follows(s.sources[index], Positions(entries, capacity), k)
    requires f == ContextFrame(index, entries, capacity, known, k, n)
    ensures AcceptSingle(s, f.header, f.payload) == Some(WithContexts(s, index, Positions(entries, capacity), n))
    ensures Follows(WithContexts(s, index, Positions(entries, capacity), n).sources[index],
                    Positions(entries, capacity), n)
  {
    hide AcceptSingle, AcceptReducedContext, LegalHeader, Joined, ContextItems, Positions, ValidReducedRow,
      ReducedBlock, Ascending, Follows, WithContexts, ValidMode, ContextFrame, PayloadSize;
    FrameFields(index, entries, capacity, known, k, n, f);
    PositionsBound(entries, capacity);
    ContextsAccepted(s, f.header, f.payload, Positions(entries, capacity), k);
    ContextsFollow(s, index, Positions(entries, capacity), k, n);
  }

  lemma ContextsAccepted(s: State, h: Header, b: seq<byte>, positions: seq<nat>, k: nat)
    requires Reducing(s) && h.source < MAX_SOURCES && 0 < h.count <= 56 && h.count * REDUCED_CONTEXT_BYTES == |b|
    requires h == Header(ReducedContext, h.source, h.count, k, h.count * REDUCED_CONTEXT_BYTES, VERSION)
    requires k + h.count <= |positions| <= MAX_TRANSITION_SLOTS && Ascending(positions)
    requires Follows(s.sources[h.source], positions, k)
    requires forall r :: 0 <= r < h.count ==> ValidReducedRow(b, r) && ReducedBlock(b, r) == positions[k + r]
    ensures AcceptSingle(s, h, b) == Some(WithContexts(s, h.source, positions, k + h.count))
  {
    hide AcceptSingle, AcceptReducedContext, LegalHeader, ValidReducedRow, ReducedBlock, Ascending, Follows,
      WithContexts;
    ContextLegal(h);
    Dispatch(s, h, b);
    ContextsDecision(s, h, b, positions, k);
  }

  lemma ContextsFollow(s: State, index: nat, positions: seq<nat>, k: nat, n: nat)
    requires index < MAX_SOURCES && 0 < n <= |positions| && Follows(s.sources[index], positions, k)
    ensures Follows(WithContexts(s, index, positions, n).sources[index], positions, n)
  {
  }

  /** The state a frame of context rows leaves. */
  function WithContexts(s: State, index: nat, positions: seq<nat>, n: nat): State
    requires index < MAX_SOURCES && 0 < n <= |positions|
  {
    SetSource(s, index, s.sources[index].(next := n, reducedContexts := n, hasReduced := true,
      lastBlock := positions[n - 1], seen := true, data := true)).(sourceDataSeen := true)
  }

  lemma ContextsDecision(s: State, h: Header, b: seq<byte>, positions: seq<nat>, k: nat)
    requires Reducing(s) && h.source < MAX_SOURCES && 0 < h.count && h.count * REDUCED_CONTEXT_BYTES <= |b|
    requires h.sequence == k && k + h.count <= |positions| <= MAX_TRANSITION_SLOTS && Ascending(positions)
    requires Follows(s.sources[h.source], positions, k)
    requires forall r :: 0 <= r < h.count ==> ValidReducedRow(b, r) && ReducedBlock(b, r) == positions[k + r]
    ensures AcceptReducedContext(s, h, b) == Some(WithContexts(s, h.source, positions, k + h.count))
  {
    hide ValidReducedRow, ReducedBlock;
    forall i | 0 < i < h.count ensures ReducedBlock(b, i - 1) < ReducedBlock(b, i) {
      assert positions[k + (i - 1)] < positions[k + i];
    }
    if k > 0 { assert positions[k - 1] < positions[k + 0]; }
  }

  lemma ContextLegal(h: Header)
    requires h.kind == ReducedContext && h.source < MAX_SOURCES && 0 < h.count <= 56 && h.sequence <= MAX64
    requires h.detail == h.count * REDUCED_CONTEXT_BYTES && h.version == VERSION
    ensures LegalHeader(h)
  {
  }
}
