/**
Sealing a reduced capture: the transition rows and the observation summary of
every vCPU, then its terminator, then Complete, all accepted by the validator.
*/
module ReductionPublication {
  import opened Words
  import opened Wire
  import opened Transitions
  import opened WindowReducer
  import opened WindowFrames
  import opened Validator
  import opened ValidatorRuns
  import opened Contexts
  import opened ReductionAcceptance
  import WindowAcceptance

  /** All block entries of a capture, one list per configured vCPU. */
  datatype Capture = Capture(capacity: nat, known: nat, entries: seq<seq<Entry>>)

  function Addresses(entries: seq<Entry>): (r: seq<u64>)
    ensures |r| == |entries|
  {
    seq(|entries|, i requires 0 <= i < |entries| => entries[i].pc)
  }

  function AllAddresses(entries: seq<seq<Entry>>): (r: seq<seq<u64>>)
    ensures |r| == |entries| && forall i :: 0 <= i < |r| ==> r[i] == Addresses(entries[i])
  {
    seq(|entries|, i requires 0 <= i < |entries| => Addresses(entries[i]))
  }

  /** The reducer's window over the whole capture: opened once, ended at exit. */
  function Window(c: Capture): Model {
    Model(c.capacity, Ended, 1, AllAddresses(c.entries))
  }

  function ReducedRows(c: Capture, i: nat): seq<Row>
    requires i < |c.entries|
  {
    SourceRows(Window(c), i)
  }

  /** A capture the reducer could be configured for and whose totals `close` can represent. */
  ghost predicate Sealable(c: Capture) {
    && WindowAcceptance.Closable(Window(c)) && c.known <= MAX64
    && forall i :: 0 <= i < |c.entries| ==> |c.entries[i]| <= MAX64
  }

  // ---------------------------------------------------------------- frames

  /** The observation summary of vCPU `i`. */
  function SummaryOf(c: Capture, i: nat): Reduction
    requires i < |c.entries|
  {
    var ps, changes := Pairs(Addresses(c.entries[i])), |Changes(c.entries[i])|;
    Reduction(|c.entries|, c.capacity, c.capacity, 0, |c.entries[i]|, |ps|, |ReducedRows(c, i)|,
              Overflow(ps, c.capacity),
              changes, Min(changes, c.capacity), changes - Min(changes, c.capacity))
  }

  function ReductionBytes(r: Reduction): (b: seq<byte>)
    ensures |b| == SUMMARY_BYTES
  {
    Bytes(r.sources, 4) + Bytes(r.transitionCapacity, 4) + Bytes(r.contextCapacity, 4) + Bytes(r.reserved, 4) +
    Bytes(r.blocks, 8) + Bytes(r.transitions, 8) + Bytes(r.distinct, 8) + Bytes(r.overflow, 8) +
    Bytes(r.changes, 8) + Bytes(r.retained, 8) + Bytes(r.contextOverflow, 8)
  }

  function ReductionFrame(c: Capture, i: nat): (f: Frame)
    requires i < |c.entries|
    ensures WellSized(f)
  {
    Frame(Header(ObservationSummary, i, 1, 0, SUMMARY_BYTES, VERSION), ReductionBytes(SummaryOf(c, i)))
  }

  /** Rows and summary of vCPU `i`. */
  function SourceReport(c: Capture, i: nat): (fs: seq<Frame>)
    requires i < |c.entries|
    ensures Sized(fs)
  {
    SourceFrames(i, 1, ReducedRows(c, i), 0) + [ReductionFrame(c, i)]
  }

  function Reports(c: Capture, n: nat): (fs: seq<Frame>)
    requires n <= |c.entries|
    ensures Sized(fs)
  {
    if n == 0 then [] else Reports(c, n - 1) + SourceReport(c, n - 1)
  }

  function EndFrame(c: Capture, i: nat): (f: Frame)
    requires i < |c.entries|
    ensures WellSized(f)
  {
    Frame(Header(SourceEnd, i, 0, |Positions(c.entries[i], c.capacity)|, 0, VERSION), [])
  }

  function Ends(c: Capture, n: nat): (fs: seq<Frame>)
    requires n <= |c.entries|
    ensures Sized(fs)
  {
    if n == 0 then [] else Ends(c, n - 1) + [EndFrame(c, n - 1)]
  }

  const COMPLETE: Frame := Frame(Header(Complete, 0, 0, 0, 0, VERSION), [])

  /** Everything the plugin sends after the last context row. */
  function Sealing(c: Capture): (fs: seq<Frame>)
    ensures Sized(fs)
  {
    Reports(c, |c.entries|) + Ends(c, |c.entries|) + [COMPLETE]
  }

  // ---------------------------------------------------------------- transition rows

  /** The transition keys of vCPUs below `i` and of the first `first` rows of vCPU `i` are known. */
  ghost predicate Keyed(w: Windows, m: Model, i: nat, first: nat) {
    && i <= |m.blocks| && w.next == 1 && w.sources == 0
    && first <= (if i < |m.blocks| then |SourceRows(m, i)| else 0)
    && (forall k :: k in w.keys ==>
          k.source < i || (i < |m.blocks| && k.source == i
                           && exists r :: 0 <= r < first && SourceRows(m, i)[r].pair == k.pair))
    && |w.keys| == TotalDistinct(m.blocks[..i], m.capacity) + first
    && w.observed <= TotalObserved(m.blocks[..i]) + (if i < |m.blocks| then SumCounts(SourceRows(m, i)[..first]) else 0)
  }

  function MoreKeys(w: Windows, i: nat, chunk: seq<Row>): Windows {
    w.(keys := w.keys + KeysOf(i, chunk), observed := w.observed + SumCounts(chunk),
       sourcesSeen := if w.sourcesSeen <= i then i + 1 else w.sourcesSeen, rows := true)
  }

  lemma ChunkIsNew(w: Windows, m: Model, i: nat, first: nat, next: nat)
    requires WindowAcceptance.Closable(m) && i < |m.blocks| && first < next <= |SourceRows(m, i)|
    requires Keyed(w, m, i, first)
    ensures var chunk := SourceRows(m, i)[first..next];
      && NewRows(w.keys, i, chunk) && w.observed + SumCounts(chunk) <= MAX64
      && next <= MAX_TRANSITION_SLOTS && SumCounts(SourceRows(m, i)[..first]) + SumCounts(chunk) <= MAX64
      && (forall a :: 0 <= a < |chunk| ==> chunk[a].count <= MAX64)
      && SumCounts(SourceRows(m, i)[..next]) == SumCounts(SourceRows(m, i)[..first]) + SumCounts(chunk)
  {
    hide WindowAcceptance.Closable, TotalDistinct, TotalObserved, SumCounts, SourceRows, Pairs, Overflow, NewRows;
    WindowAcceptance.SourceRowFacts(m, i);
    WindowAcceptance.SumSplit(SourceRows(m, i), first, next);
    ChunkRows(w, m, i, first, next);
  }

  lemma ChunkRows(w: Windows, m: Model, i: nat, first: nat, next: nat)
    requires WindowAcceptance.Closable(m) && i < |m.blocks| && first < next <= |SourceRows(m, i)|
    requires Keyed(w, m, i, first)
    ensures var chunk := SourceRows(m, i)[first..next];
      NewRows(w.keys, i, chunk) && forall a :: 0 <= a < |chunk| ==> chunk[a].count <= MAX64
  {
    hide WindowAcceptance.Closable, TotalDistinct, TotalObserved, SumCounts, SourceRows, Pairs, Overflow;
    WindowAcceptance.SourceRowFacts(m, i);
    var all := SourceRows(m, i);
    var chunk := all[first..next];
    forall a | 0 <= a < |chunk| ensures Key(i, chunk[a].pair) !in w.keys && 0 < chunk[a].count <= MAX64 {
      assert chunk[a] == all[first + a];
    }
    forall a, c | 0 <= a < c < |chunk| ensures chunk[a].pair != chunk[c].pair {
      assert chunk[a] == all[first + a] && chunk[c] == all[first + c];
    }
  }

  lemma ChunkKeyed(w: Windows, m: Model, i: nat, first: nat, next: nat)
    requires WindowAcceptance.Closable(m) && i < |m.blocks| && first < next <= |SourceRows(m, i)|
    requires Keyed(w, m, i, first)
    ensures Keyed(MoreKeys(w, i, SourceRows(m, i)[first..next]), m, i, next)
  {
    hide WindowAcceptance.Closable, TotalDistinct, TotalObserved, SumCounts, SourceRows, NewRows, KeysOf;
    ChunkIsNew(w, m, i, first, next);
    var all := SourceRows(m, i);
    var chunk := all[first..next];
    ChunkApart(w.keys, i, chunk);
    forall k | k in w.keys + KeysOf(i, chunk)
      ensures k.source < i || (k.source == i && exists r :: 0 <= r < next && all[r].pair == k.pair)
    {
      if k in KeysOf(i, chunk) { ChunkKey(i, all, first, next, k); }
    }
  }

  /** New rows add exactly their number of keys. */
  lemma ChunkApart(keys: set<Key>, i: nat, chunk: seq<Row>)
    requires NewRows(keys, i, chunk)
    ensures |keys + KeysOf(i, chunk)| == |keys| + |chunk|
  {
    WindowAcceptance.KeysCount(i, chunk);
    assert keys !! KeysOf(i, chunk);
  }

  lemma ChunkKey(i: nat, all: seq<Row>, first: nat, next: nat, k: Key)
    requires first <= next <= |all| && k in KeysOf(i, all[first..next])
    ensures k.source == i && exists r :: 0 <= r < next && all[r].pair == k.pair
  {
    var chunk := all[first..next];
    var a :| 0 <= a < |chunk| && k == Key(i, chunk[a].pair);
    assert all[first + a].pair == k.pair;
  }

  /** All rows of vCPU `i` are out: the keys of the vCPUs below `i + 1` are known. */
  lemma SourceKeyed(w: Windows, m: Model, i: nat)
    requires WindowAcceptance.Closable(m) && i < |m.blocks| && Keyed(w, m, i, |SourceRows(m, i)|)
    ensures Keyed(w, m, i + 1, 0)
  {
    hide TotalDistinct, TotalObserved, TotalOverflow, SumCounts, Pairs, Overflow, PowerOfTwo, SourceRows;
    WindowAcceptance.SourceRowFacts(m, i);
    TotalsStep(m.blocks, i, m.capacity);
    WholeRows(m, i);
    if i + 1 < |m.blocks| { WindowAcceptance.NoSum(SourceRows(m, i + 1)); }
  }

  lemma WholeRows(m: Model, i: nat)
    requires i < |m.blocks|
    ensures SourceRows(m, i)[..|SourceRows(m, i)|] == SourceRows(m, i)
    ensures SourceRows(m, i) == Rows(Pairs(m.blocks[i]), m.capacity)
  {
  }

  // ---------------------------------------------------------------- the vCPUs as the validator sees them

  /** All context rows and the first `first` transition rows of a vCPU are out. */
  ghost predicate Sending(source: Source, positions: seq<nat>, rows: seq<Row>, first: nat) {
    && first <= |rows| && Follows(source.(windowRows := 0, reducedCounts := 0), positions, |positions|)
    && source.windowRows == first && source.reducedCounts == SumCounts(rows[..first])
  }

  ghost predicate Sealed(source: Source, positions: seq<nat>) {
    source.summarized && source.seen && !source.ended && source.next == |positions|
  }

  ghost predicate SourceStage(source: Source, c: Capture, i: nat, first: nat, j: nat) {
    if j >= |c.entries| then !source.seen && !source.ended
    else if j < i then Sealed(source, Positions(c.entries[j], c.capacity))
    else Sending(source, Positions(c.entries[j], c.capacity), ReducedRows(c, j), if j == i then first else 0)
  }

  /** The stream after the reports of the vCPUs below `i` and `first` rows of vCPU `i`. */
  ghost predicate Publishing(s: State, c: Capture, i: nat, first: nat) {
    && Reducing(s) && Keyed(s.windows, Window(c), i, first)
    && (if i == 0 then s.reducedSources == 0 else s.reducedSources == |c.entries| && s.reducedCapacity == c.capacity)
    && forall j :: 0 <= j < MAX_SOURCES ==> SourceStage(s.sources[j], c, i, first, j)
  }

  /** The state a row frame leaves. */
  function WithReducedRows(s: State, i: nat, chunk: seq<Row>): State
    requires i < MAX_SOURCES
  {
    var source := s.sources[i];
    SetSource(s, i, source.(windowRows := source.windowRows + |chunk|,
      reducedCounts := source.reducedCounts + SumCounts(chunk))).(windows := MoreKeys(s.windows, i, chunk))
  }

  lemma ReducedRowsDecision(s: State, h: Header, rows: seq<Row>)
    requires h.source < MAX_SOURCES && |rows| == h.count && h.sequence == s.windows.next && Reducing(s)
    requires NewRows(s.windows.keys, h.source, rows) && s.windows.observed + SumCounts(rows) <= MAX64
    requires var source := s.sources[h.source];
      && !source.ended && !source.summarized && source.windowRows + |rows| <= MAX_TRANSITION_SLOTS
      && source.reducedCounts + SumCounts(rows) <= MAX64
    ensures AcceptTransitions(s, h, rows) == Some(WithReducedRows(s, h.source, rows))
  {
    hide NewRows, SumCounts, KeysOf;
  }

  lemma ReducedRowFrame(s: State, i: nat, chunk: seq<Row>, f: Frame)
    requires Reducing(s) && s.windows.next == 1 && i < MAX_SOURCES && 0 < |chunk| <= ROWS_PER_FRAME
    requires f == RowFrame(i, 1, chunk) && forall a :: 0 <= a < |chunk| ==> chunk[a].count <= MAX64
    requires NewRows(s.windows.keys, i, chunk) && s.windows.observed + SumCounts(chunk) <= MAX64
    requires var source := s.sources[i];
      && !source.ended && !source.summarized && source.windowRows + |chunk| <= MAX_TRANSITION_SLOTS
      && source.reducedCounts + SumCounts(chunk) <= MAX64
    ensures AcceptSingle(s, f.header, f.payload) == Some(WithReducedRows(s, i, chunk))
  {
    hide LegalHeader, AcceptSingle, AcceptTransitions, EncodeRows, NewRows, SumCounts, TransitionRows, WithReducedRows;
    RowsRoundTrip(chunk);
    WindowAcceptance.RowFrameLegal(i, 1, chunk);
    Dispatch(s, f.header, f.payload);
    ReducedRowsDecision(s, f.header, chunk);
  }

  lemma StageOf(s: State, c: Capture, i: nat, first: nat)
    requires Publishing(s, c, i, first) && i < |c.entries| <= MAX_SOURCES
    ensures var source := s.sources[i];
      && Sending(source, Positions(c.entries[i], c.capacity), ReducedRows(c, i), first)
      && !source.ended && !source.summarized && source.windowRows == first <= |ReducedRows(c, i)|
      && source.reducedCounts == SumCounts(ReducedRows(c, i)[..first])
  {
    hide Reducing, Keyed, Positions, ReducedRows, SumCounts;
    assert SourceStage(s.sources[i], c, i, first, i);
  }

  /** A row frame advances the publication. */
  lemma ChunkPublished(s: State, c: Capture, i: nat, first: nat, next: nat)
    requires Sealable(c) && i < |c.entries| <= MAX_SOURCES && Publishing(s, c, i, first)
    requires first < next <= |ReducedRows(c, i)| && next - first <= ROWS_PER_FRAME
    ensures var chunk := ReducedRows(c, i)[first..next];
      && AcceptSingles(s, [RowFrame(i, 1, chunk)]) == Some(WithReducedRows(s, i, chunk))
      && Publishing(WithReducedRows(s, i, chunk), c, i, next)
  {
    hide AcceptSingles, AcceptSingle, SourceRows, RowFrame, NewRows, SumCounts, WindowAcceptance.Closable, Keyed,
      MoreKeys, Positions, Window, Sending;
    var chunk := ReducedRows(c, i)[first..next];
    StageOf(s, c, i, first);
    WindowBlocks(c);
    ChunkIsNew(s.windows, Window(c), i, first, next);
    ChunkKeyed(s.windows, Window(c), i, first, next);
    KeyedNext(s.windows, Window(c), i, first);
    ReducedRowFrame(s, i, chunk, RowFrame(i, 1, chunk));
    WindowAcceptance.OneFrame(s, RowFrame(i, 1, chunk));
    RowsStage(s, c, i, first, next);
  }

  lemma WindowBlocks(c: Capture)
    ensures |Window(c).blocks| == |c.entries|
    ensures forall i :: 0 <= i < |c.entries| ==> ReducedRows(c, i) == SourceRows(Window(c), i)
  {
    hide SourceRows;
  }

  lemma KeyedNext(w: Windows, m: Model, i: nat, first: nat)
    requires Keyed(w, m, i, first)
    ensures w.next == 1
  {
  }

  lemma RowsStage(s: State, c: Capture, i: nat, first: nat, next: nat)
    requires i < |c.entries| <= MAX_SOURCES && first < next <= |ReducedRows(c, i)|
    requires forall j :: 0 <= j < MAX_SOURCES ==> SourceStage(s.sources[j], c, i, first, j)
    requires var rows := ReducedRows(c, i);
      SumCounts(rows[..next]) == SumCounts(rows[..first]) + SumCounts(rows[first..next])
    ensures var t := WithReducedRows(s, i, ReducedRows(c, i)[first..next]);
      forall j :: 0 <= j < MAX_SOURCES ==> SourceStage(t.sources[j], c, i, next, j)
  {
    hide SumCounts, ReducedRows, Positions, MoreKeys;
    var t := WithReducedRows(s, i, ReducedRows(c, i)[first..next]);
    forall j | 0 <= j < MAX_SOURCES ensures SourceStage(t.sources[j], c, i, next, j) {
      assert SourceStage(s.sources[j], c, i, first, j);
    }
  }

  /** All rows of vCPU `i` from `first` on. */
  lemma {:induction false} RowsPublished(s: State, c: Capture, i: nat, first: nat)
    requires Sealable(c) && i < |c.entries| <= MAX_SOURCES && first <= |ReducedRows(c, i)| && Publishing(s, c, i, first)
    ensures var r := AcceptSingles(s, SourceFrames(i, 1, ReducedRows(c, i), first));
      r.Some? && Publishing(r.value, c, i, |ReducedRows(c, i)|)
    decreases |ReducedRows(c, i)| - first
  {
    hide Sealable, Publishing, ReducedRows, RowFrame, WithReducedRows, AcceptSingle;
    var rows := ReducedRows(c, i);
    if first < |rows| {
      hide AcceptSingles;
      var next := first + Min(ROWS_PER_FRAME, |rows| - first);
      ChunkPublished(s, c, i, first, next);
      SinglesAppend(s, [RowFrame(i, 1, rows[first..next])], SourceFrames(i, 1, rows, next));
      RowsPublished(WithReducedRows(s, i, rows[first..next]), c, i, next);
    }
  }

  // ---------------------------------------------------------------- summaries

  lemma ReductionRoundTrip(r: Reduction)
    requires r.sources <= MAX32 && r.transitionCapacity <= MAX32 && r.contextCapacity <= MAX32 && r.reserved <= MAX32
    requires r.blocks <= MAX64 && r.transitions <= MAX64 && r.distinct <= MAX64 && r.overflow <= MAX64
    requires r.changes <= MAX64 && r.retained <= MAX64 && r.contextOverflow <= MAX64
    ensures ReductionAt(ReductionBytes(r)) == r
  {
    hide Load, Bytes;
    var b := ReductionBytes(r);
    Pow256Words();
    assert b[0..4] == Bytes(r.sources, 4);
    assert b[4..8] == Bytes(r.transitionCapacity, 4);
    assert b[8..12] == Bytes(r.contextCapacity, 4);
    assert b[12..16] == Bytes(r.reserved, 4);
    assert b[16..24] == Bytes(r.blocks, 8);
    assert b[24..32] == Bytes(r.transitions, 8);
    assert b[32..40] == Bytes(r.distinct, 8);
    assert b[40..48] == Bytes(r.overflow, 8);
    assert b[48..56] == Bytes(r.changes, 8);
    assert b[56..64] == Bytes(r.retained, 8);
    assert b[64..72] == b[64..] == Bytes(r.contextOverflow, 8);
    LoadStored(b, 0, 4, r.sources);
    LoadStored(b, 4, 4, r.transitionCapacity);
    LoadStored(b, 8, 4, r.contextCapacity);
    LoadStored(b, 12, 4, r.reserved);
    LoadStored(b, 16, 8, r.blocks);
    LoadStored(b, 24, 8, r.transitions);
    LoadStored(b, 32, 8, r.distinct);
    LoadStored(b, 40, 8, r.overflow);
    LoadStored(b, 48, 8, r.changes);
    LoadStored(b, 56, 8, r.retained);
    LoadStored(b, 64, 8, r.contextOverflow);
  }

  /** The totals of a capture fit their fields. */
  lemma SummaryFits(c: Capture, i: nat)
    requires Sealable(c) && i < |c.entries|
    ensures var r := SummaryOf(c, i);
      && 0 < r.sources <= MAX_SOURCES && 2 <= r.transitionCapacity <= MAX_TRANSITION_SLOTS
      && PowerOfTwo(r.transitionCapacity) && r.sources * r.transitionCapacity <= MAX_TRANSITION_SLOTS
      && r.blocks <= MAX64 && r.transitions <= MAX64 && r.distinct <= r.transitionCapacity &&
        r.overflow <= r.transitions
      && r.changes <= r.blocks && (r.blocks != 0 ==> r.changes != 0)
      && SumCounts(ReducedRows(c, i)) + r.overflow == r.transitions
  {
    var m := Window(c);
    WindowAcceptance.SourceRowFacts(m, i);
    ChangesMeaning(c.entries[i]);
    WindowAcceptance.CapacityFits(m);
    hide Overflow, SumCounts, Changes, SourceRows, TotalDistinct, TotalObserved, PowerOfTwo;
    assert m.blocks[i] == Addresses(c.entries[i]);
  }

  lemma SummaryCloses(source: Source, c: Capture, i: nat)
    requires Sealable(c) && i < |c.entries|
    requires Sending(source, Positions(c.entries[i], c.capacity), ReducedRows(c, i), |ReducedRows(c, i)|)
    ensures ClosesSource(SummaryOf(c, i), i, source)
  {
    SummaryFits(c, i);
    PositionsBound(c.entries[i], c.capacity);
    WindowAcceptance.NoSum(ReducedRows(c, i));
    hide Sealable, ReducedRows, Positions, Changes, Overflow, SumCounts, PowerOfTwo, Pairs;
  }

  /** The state a summary leaves. */
  function WithSummary(s: State, c: Capture, i: nat): State
    requires i < MAX_SOURCES
  {
    SetSource(s, i, s.sources[i].(summarized := true, seen := true)).(
      sourceDataSeen := true, reducedSources := |c.entries|, reducedCapacity := c.capacity)
  }

  lemma SummaryAccepted(s: State, c: Capture, i: nat, f: Frame)
    requires Sealable(c) && i < |c.entries| <= MAX_SOURCES && Publishing(s, c, i, |ReducedRows(c, i)|)
    requires f == ReductionFrame(c, i)
    ensures AcceptSingle(s, f.header, f.payload) == Some(WithSummary(s, c, i))
  {
    hide LegalHeader, AcceptSingle, ReductionBytes, ClosesSource, Sealable, ReducedRows, Sending, SumCounts, Positions,
      Keyed, SourceStage;
    StageOf(s, c, i, |ReducedRows(c, i)|);
    SummaryCloses(s.sources[i], c, i);
    SummaryFits(c, i);
    ReductionRoundTrip(SummaryOf(c, i));
    hide SummaryOf;
    ReductionLegal(i);
    Dispatch(s, f.header, f.payload);
  }

  lemma ReductionLegal(i: nat)
    requires i < MAX_SOURCES
    ensures LegalHeader(Header(ObservationSummary, i, 1, 0, SUMMARY_BYTES, VERSION))
  {
  }

  lemma SummaryStage(s: State, c: Capture, i: nat)
    requires i < |c.entries| <= MAX_SOURCES
    requires forall j :: 0 <= j < MAX_SOURCES ==> SourceStage(s.sources[j], c, i, |ReducedRows(c, i)|, j)
    ensures forall j :: 0 <= j < MAX_SOURCES ==> SourceStage(WithSummary(s, c, i).sources[j], c, i + 1, 0, j)
  {
    hide SumCounts, ReducedRows, Positions;
    var t := WithSummary(s, c, i);
    forall j | 0 <= j < MAX_SOURCES ensures SourceStage(t.sources[j], c, i + 1, 0, j) {
      assert SourceStage(s.sources[j], c, i, |ReducedRows(c, i)|, j);
    }
  }

  /** The report of one vCPU. */
  lemma ReportAccepted(s: State, c: Capture, i: nat)
    requires Sealable(c) && i < |c.entries| <= MAX_SOURCES && Publishing(s, c, i, 0)
    ensures var r := AcceptSingles(s, SourceReport(c, i)); r.Some? && Publishing(r.value, c, i + 1, 0)
  {
    hide AcceptSingle, AcceptSingles, ReductionFrame, SourceFrames, ReducedRows, Keyed, SourceStage,
      WindowAcceptance.Closable, Window;
    RowsPublished(s, c, i, 0);
    var t := AcceptSingles(s, SourceFrames(i, 1, ReducedRows(c, i), 0)).value;
    SinglesAppend(s, SourceFrames(i, 1, ReducedRows(c, i), 0), [ReductionFrame(c, i)]);
    WindowAcceptance.OneFrame(t, ReductionFrame(c, i));
    SummaryAccepted(t, c, i, ReductionFrame(c, i));
    SummaryStage(t, c, i);
    WindowBlocks(c);
    SourceKeyed(t.windows, Window(c), i);
  }

  lemma {:induction false} ReportsAccepted(s: State, c: Capture, n: nat)
    requires Sealable(c) && n <= |c.entries| <= MAX_SOURCES && Publishing(s, c, 0, 0)
    ensures var r := AcceptSingles(s, Reports(c, n)); r.Some? && Publishing(r.value, c, n, 0)
  {
    hide AcceptSingle, SourceReport, Publishing, Sealable;
    if n > 0 {
      hide AcceptSingles;
      ReportsAccepted(s, c, n - 1);
      SinglesAppend(s, Reports(c, n - 1), SourceReport(c, n - 1));
      ReportAccepted(AcceptSingles(s, Reports(c, n - 1)).value, c, n - 1);
    }
  }

  // ---------------------------------------------------------------- terminators and Complete

  /** Every report is out and the vCPUs below `n` are terminated. */
  ghost predicate Ending(s: State, c: Capture, n: nat) {
    && Reducing(s) && n <= |c.entries| <= MAX_SOURCES && s.windows.sources == 0 && s.reducedSources == |c.entries| > 0
    && forall j :: 0 <= j < MAX_SOURCES ==>
         if j >= |c.entries| then !s.sources[j].seen
         else s.sources[j].summarized && s.sources[j].seen && (s.sources[j].ended <==> j < n) &&
              (j >= n ==> s.sources[j].next == |Positions(c.entries[j], c.capacity)|)
  }

  lemma EndingStarts(s: State, c: Capture)
    requires Sealable(c) && |c.entries| <= MAX_SOURCES && Publishing(s, c, |c.entries|, 0)
    ensures Ending(s, c, 0)
  {
    hide Positions, TotalDistinct, TotalObserved, SourceRows, SumCounts;
    assert 0 < |c.entries|;
    forall j | 0 <= j < MAX_SOURCES
      ensures if j >= |c.entries| then !s.sources[j].seen
        else s.sources[j].summarized && s.sources[j].seen && !s.sources[j].ended &&
             s.sources[j].next == |Positions(c.entries[j], c.capacity)|
    {
      assert SourceStage(s.sources[j], c, |c.entries|, 0, j);
    }
  }

  lemma EndAccepted(s: State, c: Capture, n: nat, f: Frame)
    requires n < |c.entries| && c.capacity <= MAX_TRANSITION_SLOTS && Ending(s, c, n) && f == EndFrame(c, n)
    ensures var r := AcceptSingle(s, f.header, f.payload); r.Some? && Ending(r.value, c, n + 1)
  {
    hide AcceptSingle, Positions;
    PositionsBound(c.entries[n], c.capacity);
    Dispatch(s, f.header, f.payload);
  }

  lemma {:induction false} EndsAccepted(s: State, c: Capture, n: nat)
    requires c.capacity <= MAX_TRANSITION_SLOTS && n <= |c.entries| && Ending(s, c, 0)
    ensures var r := AcceptSingles(s, Ends(c, n)); r.Some? && Ending(r.value, c, n)
  {
    hide AcceptSingle, EndFrame, Ending;
    if n > 0 {
      hide AcceptSingles;
      EndsAccepted(s, c, n - 1);
      SinglesAppend(s, Ends(c, n - 1), [EndFrame(c, n - 1)]);
      var t := AcceptSingles(s, Ends(c, n - 1)).value;
      WindowAcceptance.OneFrame(t, EndFrame(c, n - 1));
      EndAccepted(t, c, n - 1, EndFrame(c, n - 1));
    }
  }

  lemma CompleteAccepted(s: State, c: Capture)
    requires Ending(s, c, |c.entries|)
    ensures AcceptSingle(s, COMPLETE.header, []) == Some(s.(finished := true))
  {
    hide AcceptSingle, Positions;
    Dispatch(s, COMPLETE.header, []);
  }

  /** Whatever was captured, sealing it is accepted through Complete. */
  lemma SealingAccepted(s: State, c: Capture)
    requires Sealable(c) && |c.entries| <= MAX_SOURCES && Publishing(s, c, 0, 0)
    ensures var r := AcceptSingles(s, Sealing(c)); r.Some? && r.value.finished
  {
    hide AcceptSingle, AcceptSingles, Reports, Ends, Publishing, Ending;
    ReportsAccepted(s, c, |c.entries|);
    var t := AcceptSingles(s, Reports(c, |c.entries|)).value;
    EndingStarts(t, c);
    WindowAcceptance.CapacityFits(Window(c));
    EndsAccepted(t, c, |c.entries|);
    SinglesAppend(s, Reports(c, |c.entries|), Ends(c, |c.entries|));
    var u := AcceptSingles(t, Ends(c, |c.entries|)).value;
    SinglesAppend(s, Reports(c, |c.entries|) + Ends(c, |c.entries|), [COMPLETE]);
    WindowAcceptance.OneFrame(u, COMPLETE);
    CompleteAccepted(u, c);
  }
}
