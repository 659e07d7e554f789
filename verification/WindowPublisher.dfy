/** The plugin's publication loop over a reducer, and what it means for the stream that reads it. */
module WindowPublisher {
  import opened Words
  import opened Wire
  import opened Transitions
  import opened WindowReducer
  import opened WindowFrames

  /** One row frame: `count` rows of a source starting at `first`, read back row by row. */
  method ChunkFrame(reducer: WindowReducer.TransitionWindow, source: nat, id: u64, first: nat,
                    count: nat) returns (f: Frame)
    requires reducer.Valid() && source < |reducer.sources| && id == reducer.window
    requires first + count <= |Rows(Pairs(reducer.Blocks()[source]), reducer.capacity)|
    ensures f == RowFrame(source, id, Rows(Pairs(reducer.Blocks()[source]), reducer.capacity)[first..first + count])
  {
    hide reducer.Valid, Rows, Pairs, RowBytes;
    ghost var rows := Rows(Pairs(reducer.Blocks()[source]), reducer.capacity);
    var payload: seq<byte> := [];
    var index := 0;
    while index < count
      invariant index <= count && payload == EncodeRows(rows[first..first + index])
    {
      var row := reducer.RowAt(source, id, first + index);
      payload := payload + RowBytes(row);
      assert rows[first..first + index + 1] == rows[first..first + index] + [row];
      index := index + 1;
    }
    f := Frame(Header(BlockTransitions, source, count, id, count * TRANSITION_BYTES, VERSION), payload);
  }

  /** The frames of one source, in steps of 169 rows. */
  method PublishSource(reducer: WindowReducer.TransitionWindow, source: nat, id: u64) returns (frames: seq<Frame>)
    requires reducer.Valid() && source < |reducer.sources| && id == reducer.window
    ensures frames == SourceFrames(source, id, Rows(Pairs(reducer.Blocks()[source]), reducer.capacity), 0)
  {
    hide reducer.Valid, Rows, Pairs, RowFrame, SourceFrames;
    ghost var all := Rows(Pairs(reducer.Blocks()[source]), reducer.capacity);
    var rows := reducer.RowCount(source, id);
    frames := [];
    var first := 0;
    while first < rows
      invariant first <= rows == |all|
      invariant SourceFrames(source, id, all, 0) == frames + SourceFrames(source, id, all, first)
      decreases rows - first
    {
      var remaining := rows - first;
      var count := if remaining < ROWS_PER_FRAME then remaining else ROWS_PER_FRAME;
      var frame := ChunkFrame(reducer, source, id, first, count);
      UnfoldSource(source, id, all, first, frames);
      frames := frames + [frame];
      first := first + count;
    }
    NoMoreRows(source, id, all);
  }

  lemma UnfoldSource(source: nat, id: nat, rows: seq<Row>, first: nat, sent: seq<Frame>)
    requires first < |rows|
    ensures var next := first + Min(ROWS_PER_FRAME, |rows| - first);
      sent + SourceFrames(source, id, rows, first) ==
        sent + [RowFrame(source, id, rows[first..next])] + SourceFrames(source, id, rows, next)
  {
    hide RowFrame;
    var next := first + Min(ROWS_PER_FRAME, |rows| - first);
    var frame, rest := RowFrame(source, id, rows[first..next]), SourceFrames(source, id, rows, next);
    assert SourceFrames(source, id, rows, first) == [frame] + rest;
    assert sent + ([frame] + rest) == sent + [frame] + rest;
  }

  /**
  Closes the window and publishes it. The caller stops every producer first, so
  the rows read here are the rows the summary counted.
  */
  method Publish(reducer: WindowReducer.TransitionWindow) returns (ok: bool, published: bool, frames: seq<Frame>)
    requires reducer.Valid()
    modifies reducer`phase
    ensures reducer.Valid() && reducer.View() == old(reducer.View()).(phase := Idle)
    ensures ok <==> old(reducer.phase) == Idle || TotalObserved(old(reducer.Blocks())) <= MAX64
    ensures ok ==> published == (old(reducer.phase) != Idle)
    ensures ok ==> frames == if published then Published(old(reducer.View())) else []
  {
    hide WindowSource.Valid, Rows, Pairs, SourceFrames, RowFrames, Configurable, TotalObserved, Closing, SummaryFrame;
    ghost var m := reducer.View();
    var summary: Summary;
    ok, summary := reducer.Close();
    if !ok { return false, false, []; }
    if summary.status == NoWindow {
      ClosedStatus(m);
      return true, false, [];
    }
    ClosedStatus(m);
    frames := [];
    var source := 0;
    while source < summary.sources
      invariant source <= summary.sources && reducer.Valid() && reducer.Blocks() == m.blocks
      invariant reducer.View() == m.(phase := Idle)
      invariant RowFrames(m, 0) == frames + RowFrames(m, source)
    {
      var more := PublishSource(reducer, source, summary.id);
      UnfoldRows(m, source, frames);
      frames := frames + more;
      source := source + 1;
    }
    NoMoreSources(m);
    frames := frames + [SummaryFrame(summary)];
    return true, true, frames;
  }

  lemma NoMoreRows(source: nat, id: nat, rows: seq<Row>)
    ensures SourceFrames(source, id, rows, |rows|) == []
  {
  }

  lemma NoMoreSources(m: Model)
    ensures RowFrames(m, |m.blocks|) == []
  {
  }

  lemma UnfoldRows(m: Model, source: nat, sent: seq<Frame>)
    requires source < |m.blocks|
    ensures sent + RowFrames(m, source) ==
      sent + SourceFrames(source, m.window, SourceRows(m, source), 0) + RowFrames(m, source + 1)
  {
    hide SourceFrames, SourceRows;
    var more, rest := SourceFrames(source, m.window, SourceRows(m, source), 0), RowFrames(m, source + 1);
    assert RowFrames(m, source) == more + rest;
    assert sent + (more + rest) == sent + more + rest;
  }

  lemma ClosedStatus(m: Model)
    ensures m.phase != Idle ==>
      Closing(m).status != NoWindow && Closing(m).sources == |m.blocks| && Closing(m).id == m.window
  {
  }
}
