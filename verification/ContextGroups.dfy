/**
The grouped decoder in its own form: a counting pass over every accepted frame,
exactly sized column buffers per source, and a filling pass that advances row
cursors through them.
*/
module ContextGroups {
  import opened Words
  import opened Wire
  import opened Validator
  import opened MixedTables
  import opened GroupDecoding
  import StreamChecker

  /** Rows of one kind in a list of runs. */
  function RowsOfKind(runs: seq<Run>, kind: Kind): nat {
    if runs == [] then 0
    else
      var last := runs[|runs| - 1];
      RowsOfKind(runs[..|runs| - 1], kind) + if last.kind == kind then last.rows else 0
  }

  lemma {:induction false} EntryCount(first: nat, runs: seq<Run>, kind: Kind)
    requires ContextRuns(runs)
    ensures |Entries(first, runs, kind)| == RowsOfKind(runs, kind)
  {
    hide RunEntries;
    if runs != [] { EntryCount(first, runs[..|runs| - 1], kind); }
  }

  lemma KindAppend(runs: seq<Run>, run: Run, kind: Kind)
    ensures RowsOfKind(runs + [run], kind) == RowsOfKind(runs, kind) + if run.kind == kind then run.rows else 0
  {
    assert (runs + [run])[..|runs|] == runs;
  }

  lemma EntriesAppend(first: nat, runs: seq<Run>, run: Run, kind: Kind)
    requires ContextRuns(runs) && ContextRun(run)
    ensures ContextRuns(runs + [run])
    ensures Entries(first, runs + [run], kind) ==
      Entries(first, runs, kind) + if run.kind == kind then RunEntries(first + RowTotal(runs), run) else []
  {
    hide RunEntries;
    assert (runs + [run])[..|runs|] == runs;
  }

  /** Where a pass over a payload stands: the runs read so far and what is left to parse. */
  ghost predicate Parsing(f: Frame, done: seq<Run>, offset: nat, events: nat) {
    && offset <= |f.payload| && events <= f.header.count && events == RowTotal(done)
    && var rest := RunsAt(f.payload, offset, f.header.count - events);
       RunsAt(f.payload, 0, f.header.count) == if rest.None? then None else Some(done + rest.value)
  }

  lemma ParsingStarts(f: Frame)
    ensures Parsing(f, [], 0, 0)
  {
    var r := RunsAt(f.payload, 0, f.header.count);
    if r.Some? { assert [] + r.value == r.value; }
  }

  /** The run at `offset`, as both passes read it. */
  function RunThere(b: seq<byte>, offset: nat): Run
    requires offset + 8 <= |b| && U32(b, offset + 4) <= |b| - offset - 8
  {
    Run(KindOf(U16(b, offset)), U16(b, offset + 2), b[offset + 8..offset + 8 + U32(b, offset + 4)])
  }

  /** What the run header at `offset` must say for the frame to be context-only. */
  predicate ContextHeader(b: seq<byte>, offset: nat, left: nat)
    requires offset < |b|
  {
    && |b| - offset >= 8
    && var kind, rows, size := KindOf(U16(b, offset)), U16(b, offset + 2), U32(b, offset + 4);
       (kind == Blocks || kind == AddressContext) && rows != 0 && rows <= left && size == rows * RowBytes(kind) &&
       size <= |b| - offset - 8
  }

  lemma ParsingNext(f: Frame, done: seq<Run>, offset: nat, events: nat)
    requires Parsing(f, done, offset, events) && offset < |f.payload|
    requires ContextHeader(f.payload, offset, f.header.count - events)
    ensures var run := RunThere(f.payload, offset);
      ContextRun(run) && Parsing(f, done + [run], offset + 8 + |run.data|, events + run.rows)
  {
    hide KindOf, Load, RowTotal;
    var b, left := f.payload, f.header.count - events;
    var run := RunThere(b, offset);
    AppendTotal(done, run);
    var rest := RunsAt(b, offset + 8 + |run.data|, left - run.rows);
    assert RunsAt(b, offset, left) == if rest.None? then None else Some([run] + rest.value);
    hide RunsAt;
    if rest.Some? { assert done + ([run] + rest.value) == done + [run] + rest.value; }
  }

  lemma ParsingStops(f: Frame, done: seq<Run>, offset: nat, events: nat)
    requires Parsing(f, done, offset, events) && offset < |f.payload|
    requires !ContextHeader(f.payload, offset, f.header.count - events)
    ensures !ContextFrame(f)
  {
    hide KindOf, Load;
    var b, left := f.payload, f.header.count - events;
    var rest := RunsAt(b, offset, left);
    if rest.Some? {
      assert rest.value[0] == RunThere(b, offset);
      assert !ContextRun(rest.value[0]);
      assert (done + rest.value)[|done|] == rest.value[0];
    }
  }

  lemma ParsingEnds(f: Frame, done: seq<Run>, offset: nat, events: nat)
    requires Parsing(f, done, offset, events) && offset == |f.payload|
    ensures RunsAt(f.payload, 0, f.header.count) == if events == f.header.count then Some(done) else None
  {
    assert done + [] == done;
  }

  /** `count_context_rows`: succeeds exactly on context-only frames and counts their rows. */
  method CountRows(f: Frame) returns (r: Option<(nat, nat)>)
    ensures r.Some? <==> ContextFrame(f)
    ensures r.Some? ==> r.value == (|FrameEntries(f, Blocks)|, |FrameEntries(f, AddressContext)|)
  {
    hide RunsAt, KindOf, Load, Parsing, Entries, RowsOfKind, ContextFrame;
    var b := f.payload;
    var blocks: nat, contexts: nat, offset: nat, events: nat := 0, 0, 0, 0;
    ghost var done: seq<Run> := [];
    ParsingStarts(f);
    NoneOfKind();
    while offset < |b|
      invariant offset <= |b| && Parsing(f, done, offset, events) && ContextRuns(done) && events <= f.header.count
      invariant blocks == RowsOfKind(done, Blocks) && contexts == RowsOfKind(done, AddressContext)
    {
      if !ContextHeader(b, offset, f.header.count - events) { ParsingStops(f, done, offset, events); }
      if |b| - offset < 8 { return None; }
      var kind, rows, size := KindOf(U16(b, offset)), U16(b, offset + 2), U32(b, offset + 4);
      if (kind != Blocks && kind != AddressContext) || rows == 0 || rows > f.header.count - events ||
         size != rows * RowBytes(kind) || size > |b| - offset - 8
      {
        return None;
      }
      ghost var run := RunThere(b, offset);
      ParsingNext(f, done, offset, events);
      KindAppend(done, run, Blocks);
      KindAppend(done, run, AddressContext);
      done := done + [run];
      if kind == Blocks { blocks := blocks + rows; } else { contexts := contexts + rows; }
      events := events + rows;
      ParsedRows(f, done, offset + 8 + size, events);
      offset := offset + 8 + size;
    }
    ParsingEnds(f, done, offset, events);
    if events != f.header.count {
      NotParsed(f);
      return None;
    }
    ParsedFrame(f, done);
    return Some((blocks, contexts));
  }

  lemma NoneOfKind()
    ensures RowsOfKind([], Blocks) == 0 && RowsOfKind([], AddressContext) == 0
  {
  }

  lemma ParsedRows(f: Frame, done: seq<Run>, offset: nat, events: nat)
    requires Parsing(f, done, offset, events)
    ensures events <= f.header.count && events == RowTotal(done)
  {
    hide RunsAt;
  }

  lemma NotParsed(f: Frame)
    requires RunsAt(f.payload, 0, f.header.count).None?
    ensures !ContextFrame(f)
  {
  }

  lemma ParsedFrame(f: Frame, done: seq<Run>)
    requires RunsAt(f.payload, 0, f.header.count) == Some(done) && ContextRuns(done)
    ensures ContextFrame(f)
    ensures forall kind :: |FrameEntries(f, kind)| == RowsOfKind(done, kind)
  {
    hide RunsAt;
    forall kind ensures |FrameEntries(f, kind)| == RowsOfKind(done, kind) { EntryCount(f.header.sequence, done, kind); }
  }

  // ---------------------------------------------------------------- filling

  /** One run's rows, written behind the cursor. */
  method FillRun(a: array<Entry>, at: nat, first: nat, run: Run)
    requires ContextRun(run) && at + run.rows <= a.Length
    modifies a
    ensures a[..at + run.rows] == old(a[..at]) + RunEntries(first, run)
  {
    hide Values;
    ghost var before := a[..at];
    for row := 0 to run.rows
      invariant a[..at + row] == before + RunEntries(first, run)[..row]
    {
      a[at + row] := RunEntry(first, run, row);
      assert a[..at + row + 1] == a[..at + row] + [RunEntries(first, run)[row]];
      assert RunEntries(first, run)[..row + 1] == RunEntries(first, run)[..row] + [RunEntries(first, run)[row]];
    }
    assert RunEntries(first, run)[..run.rows] == RunEntries(first, run);
  }

  /** The run at the cursor: it parses, has room, and its rows come next. */
  lemma NextRun(f: Frame, done: seq<Run>, offset: nat, events: nat)
    requires ContextFrame(f) && Parsing(f, done, offset, events) && ContextRuns(done) && offset < |f.payload|
    ensures offset + 8 <= |f.payload| && U32(f.payload, offset + 4) <= |f.payload| - offset - 8
    ensures var run := RunThere(f.payload, offset);
      && ContextRun(run) && ContextRuns(done + [run]) && (run.kind == Blocks || run.kind == AddressContext)
      && Parsing(f, done + [run], offset + 8 + |run.data|, events + run.rows)
      && offset + 8 + |run.data| <= |f.payload| && events + run.rows <= f.header.count
      && forall kind :: Grows(f, done, run, events, kind)
  {
    hide RunsAt, KindOf, Load, Parsing, Entries, RunEntries, ContextFrame, FrameEntries;
    RunIsContext(f, done, offset, events);
    var run := RunThere(f.payload, offset);
    ParsingNext(f, done, offset, events);
    RoomForRun(f, done, offset, events, run);
    ParsedRows(f, done, offset, events);
    forall kind ensures ContextRuns(done + [run]) && Grows(f, done, run, events, kind) {
      EntriesAppend(f.header.sequence, done, run, kind);
    }
    ParsedRows(f, done + [run], offset + 8 + |run.data|, events + run.rows);
  }

  ghost predicate Grows(f: Frame, done: seq<Run>, run: Run, events: nat, kind: Kind)
    requires ContextFrame(f) && ContextRun(run) && ContextRuns(done) && ContextRuns(done + [run])
  {
    var first := f.header.sequence;
    && Entries(first, done + [run], kind) ==
         Entries(first, done, kind) + (if run.kind == kind then RunEntries(first + events, run) else [])
    && |Entries(first, done, kind)| + (if run.kind == kind then run.rows else 0) <= |FrameEntries(f, kind)|
  }

  lemma Behind(a: seq<Entry>, b: seq<Entry>, c: seq<Entry>)
    ensures a + b + c == a + (b + c) && b + [] == b
  {
  }

  /** `fill_context_columns`: the frame's rows go behind both cursors, which advance by exactly the counted rows. */
  method FillFrame(f: Frame, blocks: array<Entry>, contexts: array<Entry>, blockRow: nat, contextRow: nat)
    returns (b: nat, c: nat)
    requires ContextFrame(f) && blocks != contexts
    requires blockRow + |FrameEntries(f, Blocks)| <= blocks.Length
    requires contextRow + |FrameEntries(f, AddressContext)| <= contexts.Length
    modifies blocks, contexts
    ensures b == blockRow + |FrameEntries(f, Blocks)| && c == contextRow + |FrameEntries(f, AddressContext)|
    ensures blocks[..b] == old(blocks[..blockRow]) + FrameEntries(f, Blocks)
    ensures contexts[..c] == old(contexts[..contextRow]) + FrameEntries(f, AddressContext)
  {
    hide RunsAt, KindOf, Load, Parsing, Entries, RunEntries, ContextFrame, FrameEntries;
    var bytes := f.payload;
    b, c := blockRow, contextRow;
    ghost var was, seen := blocks[..blockRow], contexts[..contextRow];
    var first := f.header.sequence;
    var offset: nat, events: nat := 0, 0;
    ghost var done: seq<Run> := [];
    ParsingStarts(f);
    NothingFilled(first, was, seen);
    while offset < |bytes|
      invariant offset <= |bytes| && events <= f.header.count && Parsing(f, done, offset, events) && ContextRuns(done)
      invariant b <= blocks.Length && c <= contexts.Length
      invariant blocks[..b] == was + Entries(first, done, Blocks)
      invariant contexts[..c] == seen + Entries(first, done, AddressContext)
    {
      NextRun(f, done, offset, events);
      var run := RunThere(bytes, offset);
      assert Grows(f, done, run, events, Blocks) && Grows(f, done, run, events, AddressContext);
      Behind(was, Entries(first, done, Blocks), RunEntries(first + events, run));
      Behind(seen, Entries(first, done, AddressContext), RunEntries(first + events, run));
      if run.kind == Blocks {
        FillRun(blocks, b, first + events, run);
        b := b + run.rows;
      } else {
        FillRun(contexts, c, first + events, run);
        c := c + run.rows;
      }
      done := done + [run];
      offset := offset + 8 + |run.data|;
      events := events + run.rows;
    }
    Filled(f, done, offset, events);
  }

  lemma NothingFilled(first: nat, a: seq<Entry>, b: seq<Entry>)
    ensures a + Entries(first, [], Blocks) == a && b + Entries(first, [], AddressContext) == b
  {
  }

  lemma RunIsContext(f: Frame, done: seq<Run>, offset: nat, events: nat)
    requires ContextFrame(f) && Parsing(f, done, offset, events) && offset < |f.payload|
    ensures events <= f.header.count && ContextHeader(f.payload, offset, f.header.count - events)
  {
    hide RunsAt, KindOf, Load;
    if !ContextHeader(f.payload, offset, f.header.count - events) { ParsingStops(f, done, offset, events); }
  }

  /** Every prefix of the runs has at most the counted rows, so the cursors stay inside the buffers. */
  lemma RoomForRun(f: Frame, done: seq<Run>, offset: nat, events: nat, run: Run)
    requires ContextFrame(f) && ContextRuns(done) && ContextRun(run)
    requires Parsing(f, done + [run], offset + 8 + |run.data|, events + run.rows)
    ensures forall kind ::
      |Entries(f.header.sequence, done, kind)| + (if run.kind == kind then run.rows else 0) <= |FrameEntries(f, kind)|
  {
    hide RunsAt;
    var rest := RunsAt(f.payload, offset + 8 + |run.data|, f.header.count - events - run.rows).value;
    var first := f.header.sequence;
    forall kind
      ensures |Entries(first, done, kind)| + (if run.kind == kind then run.rows else 0) <= |FrameEntries(f, kind)|
    {
      EntriesAppend(first, done, run, kind);
      MoreEntries(first, done + [run], rest, kind);
    }
  }

  lemma {:induction false} MoreEntries(first: nat, runs: seq<Run>, rest: seq<Run>, kind: Kind)
    requires ContextRuns(runs + rest) && ContextRuns(runs)
    ensures |Entries(first, runs, kind)| <= |Entries(first, runs + rest, kind)|
  {
    hide RunEntries;
    if rest == [] {
      assert runs + rest == runs;
    } else {
      assert (runs + rest)[..|runs + rest| - 1] == runs + rest[..|rest| - 1];
      MoreEntries(first, runs, rest[..|rest| - 1], kind);
    }
  }

  lemma Filled(f: Frame, done: seq<Run>, offset: nat, events: nat)
    requires ContextFrame(f) && Parsing(f, done, offset, events) && offset == |f.payload| && ContextRuns(done)
    ensures forall kind :: FrameEntries(f, kind) == Entries(f.header.sequence, done, kind)
  {
    ParsingEnds(f, done, offset, events);
  }

  // ---------------------------------------------------------------- the group

  /** The header pass: stops at the first buffer that is not one whole mixed frame. */
  method ReadFrames(raws: seq<seq<byte>>) returns (fs: seq<Frame>)
    ensures fs == Readable(raws)
  {
    hide Received;
    fs := [];
    var i := 0;
    while i < |raws|
      invariant i <= |raws| && |fs| == i && fs == Readable(raws[..i])
    {
      var f := Received(raws[i]);
      assert raws[..i + 1][..i] == raws[..i];
      if f.None? {
        ReadableStuck(raws, i);
        return;
      }
      fs := fs + [f.value];
      i := i + 1;
    }
    assert raws[..i] == raws;
  }

  lemma {:induction false} ReadableStuck(raws: seq<seq<byte>>, i: nat)
    requires i < |raws| && Received(raws[i]).None? && |Readable(raws[..i])| == i
    ensures Readable(raws) == Readable(raws[..i])
  {
    hide Received;
    var front := raws[..|raws| - 1];
    if i == |raws| - 1 {
    } else {
      assert front[..i] == raws[..i];
      ReadableStuck(front, i);
    }
  }

  /** The validation pass: stops at the first frame the stream rejects. */
  method AcceptFrames(stream: StreamChecker.Stream, fs: seq<Frame>) returns (k: nat)
    requires stream.Valid() && forall i :: 0 <= i < |fs| ==> WellSized(fs[i])
    modifies stream
    ensures k == Acceptable(old(stream.View()), fs)
    ensures k == |fs| ==> stream.Valid() && AcceptAll(old(stream.View()), fs) == Some(stream.View())
  {
    hide Accept, stream.Valid, WellSized;
    ghost var s := stream.View();
    k := 0;
    while k < |fs|
      invariant k <= |fs| && stream.Valid() && AcceptAll(s, fs[..k]) == Some(stream.View())
    {
      assert fs[..k + 1][..k] == fs[..k];
      var ok := stream.Accept(fs[k]);
      if !ok {
        FirstRejected(s, fs, k);
        return;
      }
      k := k + 1;
    }
    assert fs[..k] == fs;
    FirstRejected(s, fs, k);
  }

  lemma FirstRejected(s: State, fs: seq<Frame>, k: nat)
    requires (forall i :: 0 <= i < |fs| ==> WellSized(fs[i])) && k <= |fs|
    requires AcceptAll(s, fs[..k]).Some? && (k < |fs| ==> AcceptAll(s, fs[..k + 1]).None?)
    ensures k == Acceptable(s, fs)
  {
    hide Accept, AcceptAll, WellSized, Acceptable;
    var a := Acceptable(s, fs);
    if a < k { ShorterAccepted(s, fs, a + 1, k); }
    else if k < a { ShorterAccepted(s, fs, k + 1, a); }
  }

  lemma ShorterAccepted(s: State, fs: seq<Frame>, j: nat, k: nat)
    requires (forall i :: 0 <= i < |fs| ==> WellSized(fs[i])) && j <= k <= |fs| && AcceptAll(s, fs[..k]).Some?
    ensures AcceptAll(s, fs[..j]).Some?
  {
    hide Accept, AcceptAll, WellSized;
    AcceptedPrefix(s, fs[..k], j);
    assert fs[..k][..j] == fs[..j];
  }

  /** What the counting pass remembers of a source. */
  datatype Tally = Tally(source: nat, first: nat, blocks: nat, contexts: nat)

  /** The tallies are those of the frames read so far, one per source in order of first occurrence. */
  ghost predicate Tallied(ts: seq<Tally>, fs: seq<Frame>)
    requires ContextFrames(fs)
  {
    && |ts| == |Sources(fs)|
    && forall g :: 0 <= g < |ts| ==>
         && ts[g].source == Sources(fs)[g] && ts[g].first == FirstSequence(fs, ts[g].source)
         && ts[g].blocks == |SourceEntries(fs, ts[g].source, Blocks)|
         && ts[g].contexts == |SourceEntries(fs, ts[g].source, AddressContext)|
  }

  /** The index of a source's tally, or the end. */
  method FindTally(ts: seq<Tally>, source: nat) returns (g: nat)
    ensures g <= |ts| && (g < |ts| ==> ts[g].source == source)
    ensures forall j :: 0 <= j < g ==> ts[j].source != source
  {
    g := 0;
    while g < |ts| && ts[g].source != source
      invariant g <= |ts| && forall j :: 0 <= j < g ==> ts[j].source != source
    {
      g := g + 1;
    }
  }

  lemma TallyNext(ts: seq<Tally>, fs: seq<Frame>, f: Frame, g: nat, blocks: nat, contexts: nat)
    requires ContextFrames(fs) && ContextFrame(f) && Tallied(ts, fs) && g <= |ts|
    requires (g < |ts| ==> ts[g].source == f.header.source)
    requires forall j :: 0 <= j < g ==> ts[j].source != f.header.source
    requires blocks == |FrameEntries(f, Blocks)| && contexts == |FrameEntries(f, AddressContext)|
    ensures ContextFrames(fs + [f])
    ensures var source := f.header.source;
      var us := if g == |ts| then ts + [Tally(source, f.header.sequence, blocks, contexts)]
                else ts[g := Tally(source, ts[g].first, ts[g].blocks + blocks, ts[g].contexts + contexts)];
      Tallied(us, fs + [f])
  {
    hide FrameEntries, ContextFrame;
    var more, source := fs + [f], f.header.source;
    assert more[..|fs|] == fs;
    SourcesMeaning(fs);
    NoEntriesBefore(fs, source);
    hide SourceEntries;
    forall s ensures SourceEntries(more, s, Blocks)
                     == SourceEntries(fs, s, Blocks) + (if s == source then FrameEntries(f, Blocks) else [])
      ensures SourceEntries(more, s, AddressContext) ==
        SourceEntries(fs, s, AddressContext) + (if s == source then FrameEntries(f, AddressContext) else [])
    {
      SourceAppend(fs, f, s, Blocks);
      SourceAppend(fs, f, s, AddressContext);
    }
    if g == |ts| {
      NotListed(ts, fs, source);
    } else {
      assert Sources(fs)[g] == source;
    }
  }

  lemma NotListed(ts: seq<Tally>, fs: seq<Frame>, source: nat)
    requires ContextFrames(fs) && Tallied(ts, fs) && forall j :: 0 <= j < |ts| ==> ts[j].source != source
    ensures source !in Sources(fs)
  {
    hide FrameEntries, ContextFrame, SourceEntries;
    forall k | 0 <= k < |Sources(fs)| ensures Sources(fs)[k] != source { assert ts[k].source == Sources(fs)[k]; }
  }

  lemma SourceAppend(fs: seq<Frame>, f: Frame, s: nat, kind: Kind)
    requires ContextFrames(fs) && ContextFrame(f)
    ensures ContextFrames(fs + [f])
    ensures SourceEntries(fs + [f], s, kind)
            == SourceEntries(fs, s, kind) + if s == f.header.source then FrameEntries(f, kind) else []
  {
    hide FrameEntries, ContextFrame;
    assert (fs + [f])[..|fs|] == fs;
  }

  lemma {:induction false} NoEntriesBefore(fs: seq<Frame>, source: nat)
    requires ContextFrames(fs)
    ensures source !in Sources(fs) ==> forall kind :: SourceEntries(fs, source, kind) == []
  {
    hide FrameEntries, ContextFrame;
    if fs == [] {
    } else {
      NoEntriesBefore(fs[..|fs| - 1], source);
    }
  }

  /** The counting pass over the accepted frames; it stops at the first frame with another signal. */
  method CountFrames(fs: seq<Frame>) returns (ts: seq<Tally>, k: nat)
    ensures k == Countable(fs) && Tallied(ts, fs[..k])
  {
    hide ContextFrame, FrameEntries, SourceEntries, FirstSequence, Sources, Countable;
    ts, k := [], 0;
    NothingTallied(fs);
    while k < |fs|
      invariant k <= |fs| && ContextFrames(fs[..k]) && Tallied(ts, fs[..k])
    {
      var counts := CountRows(fs[k]);
      if counts.None? {
        CountedAll(fs, k);
        return;
      }
      var g := FindTally(ts, fs[k].header.source);
      TallyNext(ts, fs[..k], fs[k], g, counts.value.0, counts.value.1);
      assert fs[..k] + [fs[k]] == fs[..k + 1];
      if g == |ts| {
        ts := ts + [Tally(fs[k].header.source, fs[k].header.sequence, counts.value.0, counts.value.1)];
      } else {
        ts := ts[g := Tally(fs[k].header.source, ts[g].first, ts[g].blocks + counts.value.0,
                            ts[g].contexts + counts.value.1)];
      }
      k := k + 1;
    }
    CountedAll(fs, k);
  }

  lemma NothingTallied(fs: seq<Frame>)
    ensures fs[..0] == [] && Tallied([], fs[..0])
  {
  }

  lemma CountedAll(fs: seq<Frame>, k: nat)
    requires k <= |fs| && ContextFrames(fs[..k]) && (k < |fs| ==> !ContextFrame(fs[k]))
    ensures k == Countable(fs)
  {
    hide ContextFrame, Countable;
    var c := Countable(fs);
    if c < k { ContextAt(fs, k, c); }
    if k < c { ContextAt(fs, c, k); }
  }

  lemma ContextAt(fs: seq<Frame>, k: nat, c: nat)
    requires c < k <= |fs| && ContextFrames(fs[..k])
    ensures ContextFrame(fs[c])
  {
    hide ContextFrame;
    assert fs[..k][c] == fs[c];
  }

  /** The filling pass of one source: buffers of exactly the counted size, filled to the last row. */
  method FillSource(fs: seq<Frame>, t: Tally) returns (group: Group)
    requires ContextFrames(fs)
    requires t.blocks == |SourceEntries(fs, t.source, Blocks)|
    requires t.contexts == |SourceEntries(fs, t.source, AddressContext)|
    ensures group == Group(t.source, t.first, SourceEntries(fs, t.source, Blocks),
                           SourceEntries(fs, t.source, AddressContext))
  {
    hide ContextFrame, FrameEntries, SourceEntries;
    var blocks := new Entry[t.blocks](_ => Entry(0, []));
    var contexts := new Entry[t.contexts](_ => Entry(0, []));
    var b: nat, c: nat := 0, 0;
    NoSourceEntries(fs, t.source);
    var i := 0;
    while i < |fs|
      invariant i <= |fs| && b <= blocks.Length && c <= contexts.Length && ContextFrames(fs[..i])
      invariant blocks[..b] == SourceEntries(fs[..i], t.source, Blocks)
      invariant contexts[..c] == SourceEntries(fs[..i], t.source, AddressContext)
    {
      assert fs[..i] + [fs[i]] == fs[..i + 1];
      SourceAppend(fs[..i], fs[i], t.source, Blocks);
      SourceAppend(fs[..i], fs[i], t.source, AddressContext);
      MoreSourceEntries(fs, i + 1, t.source, Blocks);
      MoreSourceEntries(fs, i + 1, t.source, AddressContext);
      if fs[i].header.source == t.source {
        b, c := FillFrame(fs[i], blocks, contexts, b, c);
      } else {
        assert blocks[..b] + [] == blocks[..b] && contexts[..c] + [] == contexts[..c];
      }
      i := i + 1;
    }
    assert fs[..i] == fs;
    group := Group(t.source, t.first, blocks[..], contexts[..]);
    assert blocks[..] == blocks[..b] && contexts[..] == contexts[..c];
  }

  lemma NoSourceEntries(fs: seq<Frame>, source: nat)
    ensures ContextFrames(fs[..0])
    ensures SourceEntries(fs[..0], source, Blocks) == [] == SourceEntries(fs[..0], source, AddressContext)
  {
  }

  lemma {:induction false} MoreSourceEntries(fs: seq<Frame>, i: nat, source: nat, kind: Kind)
    requires ContextFrames(fs) && i <= |fs|
    ensures ContextFrames(fs[..i]) && |SourceEntries(fs[..i], source, kind)| <= |SourceEntries(fs, source, kind)|
  {
    hide FrameEntries, ContextFrame;
    if i == |fs| {
      assert fs[..i] == fs;
    } else {
      var front := fs[..|fs| - 1];
      MoreSourceEntries(front, i, source, kind);
      assert front[..i] == fs[..i];
    }
  }

  /** One group per tally. */
  method FillGroups(fs: seq<Frame>, ts: seq<Tally>) returns (groups: seq<Group>)
    requires ContextFrames(fs) && Tallied(ts, fs)
    ensures groups == GroupsOf(fs)
  {
    hide ContextFrame, FrameEntries, SourceEntries, FirstSequence, Sources;
    groups := [];
    var g := 0;
    while g < |ts|
      invariant g <= |ts| && |groups| == g
      invariant forall j :: 0 <= j < g ==> groups[j] == GroupsOf(fs)[j]
    {
      var group := FillSource(fs, ts[g]);
      groups := groups + [group];
      g := g + 1;
    }
  }

  /**
   * `decode_context_frames`: one group per source with exactly the rows its frames
   * decode to one by one, for precisely the frames before the first that fails.
   */
  method DecodeGroup(stream: StreamChecker.Stream, raws: seq<seq<byte>>) returns (ok: bool, groups: seq<Group>,
                     error: bool)
    requires stream.Valid()
    modifies stream
    ensures ok <==> 1 <= |raws| <= MAX_GROUP_FRAMES
    ensures ok ==> var k := Publishable(old(stream.View()), raws);
      groups == GroupsOf(Readable(raws)[..k]) && (error <==> k < |raws|)
    ensures ok && !error ==>
      && stream.Valid() && |Readable(raws)| == |raws|
      && AcceptAll(old(stream.View()), Readable(raws)) == Some(stream.View())
    ensures !ok ==> stream.Valid() && stream.View() == old(stream.View())
  {
    hide stream.Valid, Readable, Acceptable, Countable, ContextFrames, Tallied, GroupsOf;
    groups, error := [], false;
    if |raws| < 1 || |raws| > MAX_GROUP_FRAMES { return false, [], false; }
    ok := true;
    var fs := ReadFrames(raws);
    var accepted := AcceptFrames(stream, fs);
    var ts, k := CountFrames(fs[..accepted]);
    assert fs[..accepted][..k] == fs[..k];
    groups := FillGroups(fs[..k], ts);
    error := k < |raws|;
  }
}
