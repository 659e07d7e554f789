/** How the plugin lays out a closed window: row frames of at most 169 rows, then a summary. */
module WindowFrames {
  import opened Words
  import opened Wire
  import opened Transitions
  import opened WindowReducer
  import V = Validator

  /** max_payload_bytes / transition_count_bytes */
  const ROWS_PER_FRAME: nat := 169

  function RowBytes(row: Row): (b: seq<byte>)
    ensures |b| == TRANSITION_BYTES
  {
    Bytes(row.pair.from, 8) + Bytes(row.pair.dest, 8) + Bytes(row.count, 8)
  }

  function EncodeRows(rows: seq<Row>): (b: seq<byte>)
    ensures |b| == |rows| * TRANSITION_BYTES
  {
    if rows == [] then [] else EncodeRows(rows[..|rows| - 1]) + RowBytes(rows[|rows| - 1])
  }

  function RowFrame(source: nat, id: nat, rows: seq<Row>): (f: Frame)
    ensures V.WellSized(f) && f.header.kind != Mixed
  {
    Frame(Header(BlockTransitions, source, |rows|, id, |rows| * TRANSITION_BYTES, VERSION), EncodeRows(rows))
  }

  /** The row frames of one source from row `first` on. */
  function SourceFrames(source: nat, id: nat, rows: seq<Row>, first: nat): (fs: seq<Frame>)
    requires first <= |rows|
    ensures forall i :: 0 <= i < |fs| ==> V.WellSized(fs[i]) && fs[i].header.kind != Mixed
    decreases |rows| - first
  {
    if first == |rows| then []
    else
      var next := first + Min(ROWS_PER_FRAME, |rows| - first);
      [RowFrame(source, id, rows[first..next])] + SourceFrames(source, id, rows, next)
  }

  function StatusCode(status: Status): nat {
    match status
    case NoWindow => 0
    case WindowEnded => 1
    case WindowAborted => 2
    case WindowIncomplete => 3
  }

  function SummaryBytes(s: Summary): (b: seq<byte>)
    ensures |b| == WINDOW_BYTES
  {
    Bytes(StatusCode(s.status), 4) + Bytes(s.sources, 4) + Bytes(s.capacity, 4) + Bytes(0, 4) +
    Bytes(s.distinct, 8) + Bytes(s.observed, 8) + Bytes(s.overflow, 8)
  }

  function SummaryFrame(s: Summary): (f: Frame)
    ensures V.WellSized(f) && f.header.kind != Mixed
  {
    Frame(Header(TransitionWindow, 0, 1, s.id, WINDOW_BYTES, VERSION), SummaryBytes(s))
  }

  function SourceRows(m: Model, source: nat): seq<Row>
    requires source < |m.blocks|
  {
    Rows(Pairs(m.blocks[source]), m.capacity)
  }

  /** The row frames of sources `source` and up. */
  function RowFrames(m: Model, source: nat): (fs: seq<Frame>)
    requires source <= |m.blocks|
    ensures forall i :: 0 <= i < |fs| ==> V.WellSized(fs[i]) && fs[i].header.kind != Mixed
    decreases |m.blocks| - source
  {
    if source == |m.blocks| then []
    else SourceFrames(source, m.window, SourceRows(m, source), 0) + RowFrames(m, source + 1)
  }

  /** Everything published for a window that `close` reported. */
  function Published(m: Model): (fs: seq<Frame>)
    requires m.phase != Idle
    ensures forall i :: 0 <= i < |fs| ==> V.WellSized(fs[i]) && fs[i].header.kind != Mixed
  {
    RowFrames(m, 0) + [SummaryFrame(Closing(m))]
  }

  // ---------------------------------------------------------------- decoding what was encoded

  lemma RowBytesDecode(b: seq<byte>, at: nat, row: Row)
    requires at + TRANSITION_BYTES <= |b| && b[at..at + TRANSITION_BYTES] == RowBytes(row) && row.count <= MAX64
    ensures U64(b, at) == row.pair.from && U64(b, at + 8) == row.pair.dest && U64(b, at + 16) == row.count
  {
    hide Load, Bytes;
    var cell := b[at..at + TRANSITION_BYTES];
    Pow256Words();
    assert b[at..at + 8] == cell[..8] == Bytes(row.pair.from, 8);
    assert b[at + 8..at + 16] == cell[8..16] == Bytes(row.pair.dest, 8);
    assert b[at + 16..at + 24] == cell[16..] == Bytes(row.count, 8);
    LoadStored(b, at, 8, row.pair.from);
    LoadStored(b, at + 8, 8, row.pair.dest);
    LoadStored(b, at + 16, 8, row.count);
  }

  lemma {:induction false} EncodeSlice(rows: seq<Row>, i: nat)
    requires i < |rows|
    ensures EncodeRows(rows)[i * TRANSITION_BYTES..(i + 1) * TRANSITION_BYTES] == RowBytes(rows[i])
  {
    hide RowBytes;
    var last := |rows| - 1;
    var front := EncodeRows(rows[..last]);
    assert EncodeRows(rows) == front + RowBytes(rows[last]) && |front| == last * TRANSITION_BYTES;
    if i < last {
      EncodeSlice(rows[..last], i);
      assert EncodeRows(rows)[i * TRANSITION_BYTES..(i + 1) * TRANSITION_BYTES] ==
        front[i * TRANSITION_BYTES..(i + 1) * TRANSITION_BYTES];
    } else {
      assert EncodeRows(rows)[i * TRANSITION_BYTES..(i + 1) * TRANSITION_BYTES] == RowBytes(rows[last]);
    }
  }

  lemma RowDecode(rows: seq<Row>, i: nat)
    requires i < |rows| && rows[i].count <= MAX64
    ensures V.TransitionRow(EncodeRows(rows), i) == rows[i]
  {
    hide RowBytes, EncodeRows, Load;
    EncodeSlice(rows, i);
    RowBytesDecode(EncodeRows(rows), i * TRANSITION_BYTES, rows[i]);
  }

  /** Row frames carry exactly the rows they were built from. */
  lemma RowsRoundTrip(rows: seq<Row>)
    requires forall i :: 0 <= i < |rows| ==> rows[i].count <= MAX64
    ensures V.TransitionRows(EncodeRows(rows), |rows|) == rows
  {
    hide EncodeRows, V.TransitionRow;
    forall i | 0 <= i < |rows| ensures V.TransitionRow(EncodeRows(rows), i) == rows[i] {
      RowDecode(rows, i);
    }
  }

  lemma SummaryRoundTrip(s: Summary)
    requires s.sources <= MAX32 && s.capacity <= MAX32 && s.distinct <= MAX64 && s.observed <= MAX64
    requires s.overflow <= MAX64
    ensures V.WindowTotalsAt(SummaryBytes(s)) ==
      V.WindowTotals(StatusCode(s.status), s.sources, s.capacity, 0, s.distinct, s.observed, s.overflow)
  {
    hide Load, Bytes;
    var b := SummaryBytes(s);
    Pow256Words();
    assert b[0..4] == Bytes(StatusCode(s.status), 4);
    assert b[4..8] == Bytes(s.sources, 4);
    assert b[8..12] == Bytes(s.capacity, 4);
    assert b[12..16] == Bytes(0, 4);
    assert b[16..24] == Bytes(s.distinct, 8);
    assert b[24..32] == Bytes(s.observed, 8);
    assert b[32..40] == b[32..] == Bytes(s.overflow, 8);
    LoadStored(b, 0, 4, StatusCode(s.status));
    LoadStored(b, 4, 4, s.sources);
    LoadStored(b, 8, 4, s.capacity);
    LoadStored(b, 12, 4, 0);
    LoadStored(b, 16, 8, s.distinct);
    LoadStored(b, 24, 8, s.observed);
    LoadStored(b, 32, 8, s.overflow);
  }
}
