/**
Producer meets validator: every window the reducer closes and the plugin
publishes is accepted by a stream that expects it, unless a vCPU that has rows
in it was already terminated, in which case it is rejected.
*/
module WindowAcceptance {
  import opened Words
  import opened Wire
  import opened Transitions
  import opened WindowReducer
  import opened WindowFrames
  import opened Validator
  import opened ValidatorRuns

  /** A closed window whose totals `close` could represent. */
  ghost predicate Closable(m: Model) {
    && Configurable(|m.blocks|, m.capacity) && |m.blocks| <= MAX_SOURCES
    && m.phase != Idle && 0 < m.window && TotalObserved(m.blocks) <= MAX64
  }

  /** A stream at the boundary that follows a kernel request, before any row of the window. */
  ghost predicate Expects(s: State, m: Model) {
    && s.started && !s.finished && s.version == VERSION
    && s.features.transitionWindows && !s.features.observationReduction
    && (s.features.executableLayout ==> s.layoutSeen)
    && s.windows.expected && s.windows.next == m.window < MAX64
    && s.windows.keys == {} && s.windows.observed == 0 && s.windows.sourcesSeen == 0
    && (s.windows.sources != 0 ==> s.windows.sources == |m.blocks| && s.windows.capacity == m.capacity)
    && forall i :: 0 <= i < MAX_SOURCES ==> s.sources[i].windowRows == 0
  }

  /** No vCPU with rows in the window has been terminated. */
  ghost predicate RowSourcesLive(s: State, m: Model)
    requires |m.blocks| <= MAX_SOURCES
  {
    forall i :: 0 <= i < |m.blocks| && SourceRows(m, i) != [] ==> !s.sources[i].ended
  }

  /** Rows of vCPU `j` sent when `i` sources and `first` rows of the next one are out. */
  function Sent(m: Model, i: nat, first: nat, j: nat): nat
    requires j < MAX_SOURCES && i <= |m.blocks|
  {
    if j < i then |SourceRows(m, j)| else if j == i then first else 0
  }

  /** The stream after the rows of `i` sources and the first `first` rows of source `i`. */
  ghost predicate Progress(s0: State, s: State, m: Model, i: nat, first: nat)
    requires |m.blocks| <= MAX_SOURCES
  {
    && i <= |m.blocks| && first <= (if i < |m.blocks| then |SourceRows(m, i)| else 0)
    && s == s0.(sources := s.sources, windows := s.windows)
    && s.windows == s0.windows.(keys := s.windows.keys, observed := s.windows.observed,
                                sourcesSeen := s.windows.sourcesSeen, rows := s.windows.rows)
    && (forall j :: 0 <= j < MAX_SOURCES ==> s.sources[j] == s0.sources[j].(windowRows := Sent(m, i, first, j)))
    && (forall k :: k in s.windows.keys ==>
          k.source < i || (i < |m.blocks| && k.source == i
                           && exists r :: 0 <= r < first && SourceRows(m, i)[r].pair == k.pair))
    && |s.windows.keys| == TotalDistinct(m.blocks[..i], m.capacity) + first
    && s.windows.observed + TotalOverflow(m.blocks[..i], m.capacity) ==
         TotalObserved(m.blocks[..i]) + (if i < |m.blocks| then SumCounts(SourceRows(m, i)[..first]) else 0)
    && s.windows.sourcesSeen <= (if first > 0 then i + 1 else i)
  }

  // ---------------------------------------------------------------- facts about one source's rows

  lemma SourceRowFacts(m: Model, i: nat)
    requires Closable(m) && i < |m.blocks|
    ensures var rows := SourceRows(m, i);
      && |rows| <= m.capacity
      && (forall a, c :: 0 <= a < c < |rows| ==> rows[a].pair != rows[c].pair)
      && (forall a :: 0 <= a < |rows| ==> 0 < rows[a].count <= MAX64)
      && SumCounts(rows) + Overflow(Pairs(m.blocks[i]), m.capacity) == |Pairs(m.blocks[i])|
    ensures TotalDistinct(m.blocks[..i], m.capacity) + |SourceRows(m, i)| <= MAX_TRANSITION_SLOTS
    ensures TotalObserved(m.blocks[..i]) + |Pairs(m.blocks[i])| <= MAX64
  {
    hide TotalDistinct, TotalObserved, TotalOverflow, Overflow, Firsts, Pairs, PowerOfTwo, SumCounts, Rows;
    var ps := Pairs(m.blocks[i]);
    Conservation(ps, m.capacity);
    TotalsStep(m.blocks, i, m.capacity);
    RowsDiffer(ps, m.capacity);
  }

  /** The rows of a vCPU name different pairs and fit its slots. */
  lemma RowsDiffer(ps: seq<Pair>, capacity: nat)
    ensures var rows := Rows(ps, capacity);
      |rows| <= capacity && forall a, c :: 0 <= a < c < |rows| ==> rows[a].pair != rows[c].pair
  {
    RetainedDistinct(ps, capacity);
    hide Firsts;
  }

  lemma {:induction false} SumConcat(a: seq<Row>, c: seq<Row>)
    ensures SumCounts(a + c) == SumCounts(a) + SumCounts(c)
  {
    if c == [] {
      assert a + c == a;
    } else {
      assert (a + c)[..|a + c| - 1] == a + c[..|c| - 1];
      SumConcat(a, c[..|c| - 1]);
    }
  }

  lemma {:induction false} KeysCount(source: nat, rows: seq<Row>)
    requires forall a, c :: 0 <= a < c < |rows| ==> rows[a].pair != rows[c].pair
    ensures |KeysOf(source, rows)| == |rows|
  {
    if rows == [] {
      assert KeysOf(source, rows) == {};
    } else {
      var last := |rows| - 1;
      KeysCount(source, rows[..last]);
      KeysStep(source, rows, last);
      FreshKey(source, rows[..last], rows[last].pair);
      assert rows[..last + 1] == rows;
      hide KeysOf;
    }
  }

  // ---------------------------------------------------------------- one row frame

  /** The next rows of source `i` are new to a stream that has seen only what precedes them. */
  lemma NextRowsAreNew(s0: State, s: State, m: Model, i: nat, first: nat, next: nat)
    requires Closable(m) && i < |m.blocks| && first < next <= |SourceRows(m, i)| && Progress(s0, s, m, i, first)
    ensures NewRows(s.windows.keys, i, SourceRows(m, i)[first..next])
  {
    SourceRowFacts(m, i);
    hide Configurable, TotalDistinct, TotalObserved, TotalOverflow, SumCounts, SourceRows;
    var all := SourceRows(m, i);
    var rows := all[first..next];
    forall a | 0 <= a < |rows| ensures Key(i, rows[a].pair) !in s.windows.keys && rows[a].count > 0 {
      assert rows[a] == all[first + a];
    }
    forall a, c | 0 <= a < c < |rows| ensures rows[a].pair != rows[c].pair {
      assert rows[a] == all[first + a] && rows[c] == all[first + c];
    }
  }

  /** The state a row frame leaves. */
  function WithRows(s: State, source: nat, rows: seq<Row>): State
    requires source < MAX_SOURCES
  {
    SetSource(s, source, s.sources[source].(windowRows := s.sources[source].windowRows + |rows|)).(
      windows := s.windows.(keys := s.windows.keys + KeysOf(source, rows),
                            observed := s.windows.observed + SumCounts(rows),
        sourcesSeen := if s.windows.sourcesSeen <= source then source + 1 else s.windows.sourcesSeen, rows := true))
  }

  /** The validator's decision on a row frame while a window is expected. */
  lemma RowFrameDecision(s: State, source: nat, rows: seq<Row>)
    requires s.started && !s.finished && s.version == VERSION && (s.features.executableLayout ==> s.layoutSeen)
    requires s.features.transitionWindows && !s.features.observationReduction && s.windows.expected
    requires 0 < s.windows.next <= MAX64 && source < MAX_SOURCES && 0 < |rows| <= ROWS_PER_FRAME
    requires forall a :: 0 <= a < |rows| ==> rows[a].count <= MAX64
    requires NewRows(s.windows.keys, source, rows) && s.windows.observed + SumCounts(rows) <= MAX64
    requires s.sources[source].windowRows + |rows| <= MAX_TRANSITION_SLOTS
    ensures var f := RowFrame(source, s.windows.next, rows);
      AcceptSingle(s, f.header, f.payload) == if s.sources[source].ended then None else Some(WithRows(s, source, rows))
  {
    hide LegalHeader, AcceptSingle, AcceptTransitions, EncodeRows, NewRows, SumCounts, TransitionRows, WithRows;
    var f := RowFrame(source, s.windows.next, rows);
    RowsRoundTrip(rows);
    RowFrameLegal(source, s.windows.next, rows);
    Dispatch(s, f.header, f.payload);
    RowsDecision(s, f.header, rows);
  }

  lemma RowFrameLegal(source: nat, id: nat, rows: seq<Row>)
    requires source < MAX_SOURCES && 0 < id <= MAX64 && 0 < |rows| <= ROWS_PER_FRAME
    ensures LegalHeader(RowFrame(source, id, rows).header)
  {
    hide EncodeRows;
  }

  lemma RowsDecision(s: State, h: Header, rows: seq<Row>)
    requires h.source < MAX_SOURCES && |rows| == h.count && h.sequence == s.windows.next
    requires s.features.transitionWindows && !s.features.observationReduction && s.windows.expected
    requires NewRows(s.windows.keys, h.source, rows) && s.windows.observed + SumCounts(rows) <= MAX64
    requires s.sources[h.source].windowRows + |rows| <= MAX_TRANSITION_SLOTS
    ensures AcceptTransitions(s, h, rows) ==
      if s.sources[h.source].ended then None else Some(WithRows(s, h.source, rows))
  {
    hide NewRows, SumCounts, KeysOf;
  }

  lemma SumSplit(rows: seq<Row>, first: nat, next: nat)
    requires first <= next <= |rows|
    ensures SumCounts(rows[..next]) == SumCounts(rows[..first]) + SumCounts(rows[first..next]) <= SumCounts(rows)
  {
    hide SumCounts;
    SumConcat(rows[..first], rows[first..next]);
    assert rows[..first] + rows[first..next] == rows[..next];
    SumConcat(rows[..next], rows[next..]);
    assert rows[..next] + rows[next..] == rows;
  }

  /** What `Progress` says about the counters of source `i`. */
  lemma ProgressCounters(s0: State, s: State, m: Model, i: nat, first: nat)
    requires |m.blocks| <= MAX_SOURCES && i < |m.blocks| && Progress(s0, s, m, i, first)
    ensures s.sources[i].windowRows == first && s.sources[i].ended == s0.sources[i].ended
    ensures s.windows.observed <= TotalObserved(m.blocks[..i]) + SumCounts(SourceRows(m, i)[..first])
    ensures s.windows.next == s0.windows.next && s.windows.expected == s0.windows.expected
    ensures s.started == s0.started && s.finished == s0.finished && s.version == s0.version
    ensures s.features == s0.features && s.layoutSeen == s0.layoutSeen
  {
    hide SourceRows, SumCounts, TotalDistinct, TotalObserved, TotalOverflow;
    assert s.sources[i] == s0.sources[i].(windowRows := Sent(m, i, first, i));
  }

  lemma RowsFitStream(s0: State, s: State, m: Model, i: nat, first: nat, next: nat)
    requires Closable(m) && i < |m.blocks| && first < next <= |SourceRows(m, i)| && Progress(s0, s, m, i, first)
    ensures var rows := SourceRows(m, i)[first..next];
      && s.windows.observed + SumCounts(rows) <= MAX64
      && s.sources[i].windowRows + |rows| <= MAX_TRANSITION_SLOTS
      && (forall a :: 0 <= a < |rows| ==> rows[a].count <= MAX64)
      && SumCounts(SourceRows(m, i)[..next]) == SumCounts(SourceRows(m, i)[..first]) + SumCounts(rows)
  {
    hide Progress, SourceRows, SumCounts, Configurable, TotalDistinct, TotalObserved, TotalOverflow, Pairs, Overflow;
    SourceRowFacts(m, i);
    ProgressCounters(s0, s, m, i, first);
    SumSplit(SourceRows(m, i), first, next);
  }

  lemma ProgressKeys(s0: State, s: State, m: Model, i: nat, first: nat, next: nat)
    requires Closable(m) && i < |m.blocks| && first < next <= |SourceRows(m, i)| && Progress(s0, s, m, i, first)
    ensures var keys := s.windows.keys + KeysOf(i, SourceRows(m, i)[first..next]);
      && |keys| == TotalDistinct(m.blocks[..i], m.capacity) + next
      && (forall k :: k in keys ==>
            k.source < i || (k.source == i && exists r :: 0 <= r < next && SourceRows(m, i)[r].pair == k.pair))
  {
    NextRowsAreNew(s0, s, m, i, first, next);
    var all, rows := SourceRows(m, i), SourceRows(m, i)[first..next];
    KeysCount(i, rows);
    hide SourceRows, Configurable, TotalDistinct, TotalObserved, TotalOverflow, SumCounts;
    var fresh' := KeysOf(i, rows);
    assert s.windows.keys !! fresh';
    forall k | k in s.windows.keys + fresh'
      ensures k.source < i || (k.source == i && exists r :: 0 <= r < next && all[r].pair == k.pair)
    {
      if k in fresh' {
        var a :| 0 <= a < |rows| && k == Key(i, rows[a].pair);
        assert all[first + a].pair == k.pair;
      }
    }
  }

  lemma ProgressSources(s0: State, s: State, m: Model, i: nat, first: nat, rows: seq<Row>)
    requires |m.blocks| <= MAX_SOURCES && i < |m.blocks|
    requires forall j :: 0 <= j < MAX_SOURCES ==> s.sources[j] == s0.sources[j].(windowRows := Sent(m, i, first, j))
    ensures forall j :: 0 <= j < MAX_SOURCES ==>
      WithRows(s, i, rows).sources[j] == s0.sources[j].(windowRows := Sent(m, i, first + |rows|, j))
  {
    hide KeysOf, SumCounts, SourceRows;
    var t := WithRows(s, i, rows);
    forall j | 0 <= j < MAX_SOURCES
      ensures t.sources[j] == s0.sources[j].(windowRows := Sent(m, i, first + |rows|, j))
    {
      assert s.sources[j] == s0.sources[j].(windowRows := Sent(m, i, first, j));
    }
  }

  lemma ProgressStep(s0: State, s: State, m: Model, i: nat, first: nat, next: nat)
    requires Closable(m) && i < |m.blocks| && first < next <= |SourceRows(m, i)| && Progress(s0, s, m, i, first)
    ensures Progress(s0, WithRows(s, i, SourceRows(m, i)[first..next]), m, i, next)
  {
    hide Closable, KeysOf, SumCounts, TotalDistinct, TotalObserved, TotalOverflow, Configurable, SourceRows, Sent;
    ChunkBounds(m, i);
    ProgressKeys(s0, s, m, i, first, next);
    RowsFitStream(s0, s, m, i, first, next);
    ProgressSources(s0, s, m, i, first, SourceRows(m, i)[first..next]);
  }

  /** A row frame on a stream in progress. */
  lemma ChunkRun(s0: State, s: State, m: Model, i: nat, first: nat, next: nat)
    requires Closable(m) && Expects(s0, m) && i < |m.blocks| && Progress(s0, s, m, i, first)
    requires first < next <= |SourceRows(m, i)| && next - first <= ROWS_PER_FRAME
    ensures var chunk := SourceRows(m, i)[first..next];
      AcceptSingles(s, [RowFrame(i, m.window, chunk)]) ==
        if s0.sources[i].ended then None else Some(WithRows(s, i, chunk))
  {
    hide Progress, SourceRows, WithRows, AcceptSingle, AcceptSingles, NewRows, SumCounts, Configurable, EncodeRows;
    var chunk := SourceRows(m, i)[first..next];
    NextRowsAreNew(s0, s, m, i, first, next);
    RowsFitStream(s0, s, m, i, first, next);
    ProgressCounters(s0, s, m, i, first);
    RowFrameDecision(s, i, chunk);
    OneFrame(s, RowFrame(i, m.window, chunk));
  }

  /** All rows of one source from `first` on: accepted if there are none left or the source is live. */
  lemma {:induction false} SourceRun(s0: State, s: State, m: Model, i: nat, first: nat)
    requires Closable(m) && Expects(s0, m) && i < |m.blocks| && first <= |SourceRows(m, i)|
    requires Progress(s0, s, m, i, first)
    ensures var r := AcceptSingles(s, SourceFrames(i, m.window, SourceRows(m, i), first));
      if first < |SourceRows(m, i)| && s0.sources[i].ended then r == None
      else r.Some? && Progress(s0, r.value, m, i, |SourceRows(m, i)|)
    decreases |SourceRows(m, i)| - first
  {
    hide Closable, Expects, Progress, SourceRows, RowFrame, WithRows, AcceptSingle;
    var rows := SourceRows(m, i);
    if first < |rows| {
      hide AcceptSingles;
      var next := first + Min(ROWS_PER_FRAME, |rows| - first);
      ChunkBounds(m, i);
      ChunkRun(s0, s, m, i, first, next);
      SinglesAppend(s, [RowFrame(i, m.window, rows[first..next])], SourceFrames(i, m.window, rows, next));
      if !s0.sources[i].ended {
        ProgressStep(s0, s, m, i, first, next);
        SourceRun(s0, WithRows(s, i, rows[first..next]), m, i, next);
      }
    }
  }

  lemma ChunkBounds(m: Model, i: nat)
    requires Closable(m) && i < |m.blocks|
    ensures i < MAX_SOURCES && |m.blocks| <= MAX_SOURCES
  {
  }

  lemma OneFrame(s: State, f: Frame)
    requires WellSized(f)
    ensures AcceptSingles(s, [f]) == AcceptSingle(s, f.header, f.payload)
  {
    hide AcceptSingle;
    assert [f][..0] == [];
  }

  // ---------------------------------------------------------------- the whole window

  lemma NoSum(rows: seq<Row>)
    ensures SumCounts(rows[..0]) == 0 && rows[..|rows|] == rows
  {
  }

  lemma SentNext(s0: State, s: State, m: Model, i: nat)
    requires |m.blocks| <= MAX_SOURCES && i < |m.blocks|
    requires forall j :: 0 <= j < MAX_SOURCES ==>
      s.sources[j] == s0.sources[j].(windowRows := Sent(m, i, |SourceRows(m, i)|, j))
    ensures forall j :: 0 <= j < MAX_SOURCES ==> s.sources[j] == s0.sources[j].(windowRows := Sent(m, i + 1, 0, j))
  {
    hide SourceRows;
    forall j | 0 <= j < MAX_SOURCES ensures Sent(m, i, |SourceRows(m, i)|, j) == Sent(m, i + 1, 0, j) {}
  }

  /** Finishing source `i` is starting source `i + 1`. */
  lemma NextSource(s0: State, s: State, m: Model, i: nat)
    requires Closable(m) && i < |m.blocks| && Progress(s0, s, m, i, |SourceRows(m, i)|)
    ensures Progress(s0, s, m, i + 1, 0)
  {
    hide Closable, SumCounts, Sent, Pairs, Overflow, Rows, Configurable, TotalDistinct, TotalObserved, TotalOverflow;
    ChunkBounds(m, i);
    SourceRowFacts(m, i);
    StepTotals(m, i);
    NoSum(SourceRows(m, i));
    if i + 1 < |m.blocks| { NoSum(SourceRows(m, i + 1)); }
    SentNext(s0, s, m, i);
  }

  lemma StepTotals(m: Model, i: nat)
    requires Closable(m) && i < |m.blocks|
    ensures TotalDistinct(m.blocks[..i + 1], m.capacity)
            == TotalDistinct(m.blocks[..i], m.capacity) + |SourceRows(m, i)|
    ensures TotalObserved(m.blocks[..i + 1]) == TotalObserved(m.blocks[..i]) + |Pairs(m.blocks[i])|
    ensures TotalOverflow(m.blocks[..i + 1], m.capacity) ==
      TotalOverflow(m.blocks[..i], m.capacity) + Overflow(Pairs(m.blocks[i]), m.capacity)
  {
    hide TotalDistinct, TotalObserved, TotalOverflow, Pairs, Rows, Overflow;
    TotalsStep(m.blocks, i, m.capacity);
  }

  /** No vCPU from `i` on that has rows has been terminated. */
  ghost predicate LiveFrom(s: State, m: Model, i: nat)
    requires |m.blocks| <= MAX_SOURCES
  {
    forall j :: i <= j < |m.blocks| && SourceRows(m, j) != [] ==> !s.sources[j].ended
  }

  lemma {:induction false} RowRun(s0: State, s: State, m: Model, i: nat)
    requires Closable(m) && Expects(s0, m) && i <= |m.blocks| && Progress(s0, s, m, i, 0)
    ensures var r := AcceptSingles(s, RowFrames(m, i));
      && (r.Some? <==> LiveFrom(s0, m, i))
      && (r.Some? ==> Progress(s0, r.value, m, |m.blocks|, 0))
    decreases |m.blocks| - i
  {
    hide Closable, Expects, Progress, SourceRows, AcceptSingle;
    if i < |m.blocks| {
      ChunkBounds(m, i);
      var rows := SourceRows(m, i);
      hide AcceptSingles, SourceFrames;
      SourceRun(s0, s, m, i, 0);
      SinglesAppend(s, SourceFrames(i, m.window, rows, 0), RowFrames(m, i + 1));
      if rows != [] && s0.sources[i].ended {
        assert !LiveFrom(s0, m, i);
      } else {
        var t := AcceptSingles(s, SourceFrames(i, m.window, rows, 0)).value;
        NextSource(s0, t, m, i);
        RowRun(s0, t, m, i + 1);
        assert LiveFrom(s0, m, i) <==> LiveFrom(s0, m, i + 1);
      }
    }
  }

  lemma ProgressStart(s0: State, m: Model)
    requires Closable(m) && Expects(s0, m)
    ensures Progress(s0, s0, m, 0, 0)
  {
    assert m.blocks[..0] == [];
    assert 0 < |m.blocks|;
    assert SumCounts(SourceRows(m, 0)[..0]) == 0;
    hide SourceRows, SumCounts, Configurable;
  }

  /** The summary closes the rows. */
  lemma SummaryCloses(s0: State, s: State, m: Model)
    requires Closable(m) && Expects(s0, m) && Progress(s0, s, m, |m.blocks|, 0)
    ensures var t := Closing(m);
      ClosesWindow(WindowTotals(StatusCode(t.status), t.sources, t.capacity, 0, t.distinct, t.observed, t.overflow),
                   s.windows, s.sources)
    ensures Closing(m).distinct <= MAX_TRANSITION_SLOTS && Closing(m).overflow <= Closing(m).observed <= MAX64
  {
    DistinctFits(m.blocks, m.capacity);
    assert m.blocks[..|m.blocks|] == m.blocks;
    hide TotalDistinct, TotalObserved, TotalOverflow, PowerOfTwo;
    forall j | 0 <= j < MAX_SOURCES ensures s.sources[j].windowRows <= m.capacity {
      assert s.sources[j] == s0.sources[j].(windowRows := Sent(m, |m.blocks|, 0, j));
      if j < |m.blocks| { RowsFit(Pairs(m.blocks[j]), m.capacity); }
    }
  }

  /** The state after a published window: the same stream, one window further. */
  function AfterWindow(s: State, m: Model): State {
    s.(windows := Windows(s.windows.next + 1, {}, 0, |m.blocks|, m.capacity, 0, false, false))
  }

  lemma SummaryRun(s0: State, s: State, m: Model)
    requires Closable(m) && Expects(s0, m) && Progress(s0, s, m, |m.blocks|, 0)
    ensures AcceptSingles(s, [SummaryFrame(Closing(m))]) == Some(AfterWindow(s0, m))
  {
    hide AcceptSingle, AcceptSingles, AcceptWindow, LegalHeader, SummaryBytes, ClearRows, Progress, Closing,
      AfterWindow, Expects, Configurable;
    var f := SummaryFrame(Closing(m));
    ProgressRunning(s0, s, m);
    SummaryLegal(m);
    OneFrame(s, f);
    Dispatch(s, f.header, f.payload);
    WindowDecides(s0, s, m);
  }

  lemma ProgressRunning(s0: State, s: State, m: Model)
    requires Closable(m) && Expects(s0, m) && Progress(s0, s, m, |m.blocks|, 0)
    ensures m.window < MAX64 && Running(s, SummaryFrame(Closing(m)).header)
    ensures s.features == s0.features && s.windows.next == m.window && s.windows.expected
    ensures s == s0.(sources := s.sources, windows := s.windows) && s0.windows.next == m.window
    ensures s.features.transitionWindows
  {
    hide SourceRows, SummaryBytes, TotalDistinct, TotalObserved, TotalOverflow, Configurable, Sent;
  }

  lemma WindowDecides(s0: State, s: State, m: Model)
    requires Closable(m) && Expects(s0, m) && Progress(s0, s, m, |m.blocks|, 0)
    ensures var f := SummaryFrame(Closing(m));
      AcceptWindow(s, f.header, f.payload) == Some(AfterWindow(s0, m))
  {
    hide SummaryBytes, WindowTotalsAt, ClosesWindow, ClearRows, Progress, Configurable, TotalDistinct, TotalObserved,
      TotalOverflow, Expects;
    ProgressRunning(s0, s, m);
    SummaryCloses(s0, s, m);
    CapacityFits(m);
    SummaryRoundTrip(Closing(m));
    Restored(s0, s, m);
  }

  lemma CapacityFits(m: Model)
    requires Closable(m)
    ensures m.capacity <= MAX_TRANSITION_SLOTS && |m.blocks| <= MAX_SOURCES
  {
    Monotone(1, |m.blocks|, m.capacity);
  }

  lemma SummaryLegal(m: Model)
    requires Closable(m) && m.window < MAX64
    ensures LegalHeader(SummaryFrame(Closing(m)).header)
  {
    hide SummaryBytes;
  }

  lemma Restored(s0: State, s: State, m: Model)
    requires Closable(m) && Expects(s0, m) && Progress(s0, s, m, |m.blocks|, 0)
    ensures ClearRows(s.sources) == s0.sources
  {
    hide SourceRows, TotalDistinct, TotalObserved, TotalOverflow, Configurable;
    forall j | 0 <= j < MAX_SOURCES ensures ClearRows(s.sources)[j] == s0.sources[j] {
      assert s.sources[j] == s0.sources[j].(windowRows := Sent(m, |m.blocks|, 0, j));
    }
  }

  /**
  Every window the reducer closes, published in frames of at most 169 rows plus a
  summary, is accepted exactly when no vCPU with rows in it has been terminated;
  the stream then expects the next identifier and has forgotten the window.
  */
  lemma PublishedWindowAccepted(s: State, m: Model)
    requires Closable(m) && Expects(s, m)
    ensures AcceptSingles(s, Published(m)).Some? <==> RowSourcesLive(s, m)
    ensures RowSourcesLive(s, m) ==> AcceptSingles(s, Published(m)) == Some(AfterWindow(s, m))
  {
    hide Closable, Expects, Progress, SourceRows, AcceptSingle, AcceptSingles, SummaryFrame, Closing, AfterWindow;
    ChunkPhase(m);
    ProgressStart(s, m);
    RowRun(s, s, m, 0);
    SinglesAppend(s, RowFrames(m, 0), [SummaryFrame(Closing(m))]);
    assert LiveFrom(s, m, 0) <==> RowSourcesLive(s, m);
    if RowSourcesLive(s, m) {
      SummaryRun(s, AcceptSingles(s, RowFrames(m, 0)).value, m);
    }
  }

  lemma ChunkPhase(m: Model)
    requires Closable(m)
    ensures m.phase != Idle && |m.blocks| <= MAX_SOURCES
  {
  }
}
