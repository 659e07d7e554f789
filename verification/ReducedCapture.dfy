/**
A reduced capture from the first block to Complete: block entries of all vCPUs
in any order, buffers flushed at any time, then the sealing of the capture. The
validator accepts every such run.
*/
module ReducedCapture {
  import opened Words
  import opened Wire
  import opened Transitions
  import opened WindowReducer
  import opened WindowFrames
  import opened Validator
  import opened ValidatorRuns
  import opened RowBatches
  import opened Contexts
  import opened ReductionAcceptance
  import opened ReductionPublication
  import opened SourceBuffer
  import WindowAcceptance

  /** The capture so far and each vCPU's buffer. */
  datatype Recorder = Recorder(capture: Capture, batches: seq<Batch>)

  datatype Event = Enter(source: nat, entry: Entry) | Flush(source: nat)

  datatype Step = Failed | Continued(next: Recorder, frames: seq<Frame>)

  /** Whether the entry's context row is retained. */
  predicate Retains(c: Capture, i: nat, entry: Entry)
    requires i < |c.entries|
  {
    var entries := c.entries[i];
    (entries == [] || entry.context != entries[|entries| - 1].context) && |Changes(entries)| < c.capacity
  }

  function RowItem(c: Capture, i: nat, entry: Entry): Item
    requires i < |c.entries|
  {
    Item(ReducedContext, ContextBytes(|c.entries[i]|, entry, c.known))
  }

  /** The buffer can be flushed: it counts at least the rows it holds. */
  predicate Countable(b: Batch) {
    b.kind != RegisterSchema && |b.items| <= b.next
  }

  function EnterStep(r: Recorder, i: nat, entry: Entry): Step
    requires i < |r.capture.entries| == |r.batches| && Countable(r.batches[i])
  {
    var c, b := r.capture, r.batches[i];
    var next := c.(entries := c.entries[i := c.entries[i] + [entry]]);
    if |c.entries[i]| >= MAX64 then Failed
    else if Retains(c, i, entry)
    then Continued(Recorder(next, r.batches[i := Joining(b, false, RowItem(c, i, entry))]),
                   Emitted(i, b, false, RowItem(c, i, entry)))
    else Continued(Recorder(next, r.batches), [])
  }

  function FlushStep(r: Recorder, i: nat): Step
    requires i < |r.batches| && Countable(r.batches[i])
  {
    Continued(r.(batches := r.batches[i := r.batches[i].(items := [])]), Flushed(i, r.batches[i]))
  }

  // ---------------------------------------------------------------- one vCPU

  /** The rows retained so far, and how many of them are out. */
  function Items(c: Capture, i: nat): seq<Item>
    requires i < |c.entries|
  {
    ContextItems(c.entries[i], c.capacity, c.known)
  }

  /** The buffer holds the newest retained rows, at most one frame of them. */
  ghost predicate Buffered(c: Capture, i: nat, b: Batch)
    requires i < |c.entries|
  {
    && b.next == |Items(c, i)| && |b.items| <= |Items(c, i)| && |b.items| <= 56
    && b.items == Items(c, i)[|Items(c, i)| - |b.items|..]
    && (b.kind == ReducedContext || (b.items == [] && b.kind == Blocks))
  }

  ghost predicate Recording(s: State, c: Capture, i: nat, b: Batch)
    requires i < |c.entries| <= MAX_SOURCES
  {
    && Buffered(c, i, b) && |c.entries[i]| <= MAX64
    && (forall e :: 0 <= e < |c.entries[i]| ==> ValidMode(c.known, c.entries[i][e].context))
    && Follows(s.sources[i], Positions(c.entries[i], c.capacity), |Items(c, i)| - |b.items|)
  }

  /** The stream and the recorder agree on everything sent so far. */
  ghost predicate Tracks(s: State, r: Recorder) {
    var c := r.capture;
    && Reducing(s) && |r.batches| == |c.entries| <= MAX_SOURCES && c.capacity <= MAX_TRANSITION_SLOTS &&
      c.known <= MAX64
    && s.windows == Windows(1, {}, 0, 0, 0, 0, false, false) && s.reducedSources == 0
    && (forall j :: 0 <= j < |c.entries| ==> Recording(s, c, j, r.batches[j]))
    && forall j :: |c.entries| <= j < MAX_SOURCES ==> !s.sources[j].seen && !s.sources[j].ended
  }

  /** A full frame: the row joins while at most 55 rows wait. */
  lemma JoinsReduced(c: Capture, i: nat, b: Batch, item: Item)
    requires i < |c.entries| && Buffered(c, i, b) && item.kind == ReducedContext && |item.data| == REDUCED_CONTEXT_BYTES
    ensures Joins(b, false, item) <==> b.kind == ReducedContext && |b.items| < 56
    ensures Countable(b)
  {
    hide Joined, Items;
    ItemSizes(c, i);
    EqualRows(b.items);
  }

  lemma ItemSizes(c: Capture, i: nat)
    requires i < |c.entries|
    ensures forall k :: 0 <= k < |Items(c, i)| ==>
      Items(c, i)[k].kind == ReducedContext && |Items(c, i)[k].data| == REDUCED_CONTEXT_BYTES
    ensures |Items(c, i)| == |Positions(c.entries[i], c.capacity)|
  {
    hide ContextItems, Positions;
  }

  /** What a flush puts on the wire is the frame of the waiting rows. */
  lemma FlushedFrame(c: Capture, i: nat, b: Batch)
    requires i < |c.entries| && Buffered(c, i, b)
    ensures Countable(b) && |Items(c, i)| == |Positions(c.entries[i], c.capacity)|
    ensures Flushed(i, b) == if b.items == [] then []
      else [ContextFrame(i, c.entries[i], c.capacity, c.known, |Items(c, i)| - |b.items|, |Items(c, i)|)]
  {
    ItemSizes(c, i);
    hide Joined, ContextItems, Positions;
    if b.items != [] {
      assert b == Batch(ReducedContext, |Items(c, i)|, Items(c, i)[|Items(c, i)| - |b.items|..|Items(c, i)|]);
    }
  }

  /** The stream after a flush of vCPU `i`. */
  function AfterFlush(s: State, c: Capture, i: nat, b: Batch): State
    requires i < |c.entries| <= MAX_SOURCES
  {
    if b.items == [] || |Positions(c.entries[i], c.capacity)| == 0 then s
    else WithContexts(s, i, Positions(c.entries[i], c.capacity), |Positions(c.entries[i], c.capacity)|)
  }

  lemma FlushAccepted(s: State, c: Capture, i: nat, b: Batch)
    requires Reducing(s) && i < |c.entries| <= MAX_SOURCES && c.capacity <= MAX_TRANSITION_SLOTS && c.known <= MAX64
    requires Recording(s, c, i, b)
    ensures Countable(b) && Sized(Flushed(i, b))
    ensures AcceptSingles(s, Flushed(i, b)) == Some(AfterFlush(s, c, i, b))
    ensures Recording(AfterFlush(s, c, i, b), c, i, b.(items := []))
  {
    hide AcceptSingle, Flushed, ContextFrame, Items, Positions, ValidMode, Follows, WithContexts;
    FlushedFrame(c, i, b);
    if b.items == [] {
      Nothing(s);
    } else {
      hide AcceptSingles;
      var n := |Items(c, i)|;
      var f := ContextFrame(i, c.entries[i], c.capacity, c.known, n - |b.items|, n);
      ContextFrameAccepted(s, i, c.entries[i], c.capacity, c.known, n - |b.items|, n, f);
      WindowAcceptance.OneFrame(s, f);
    }
  }

  lemma Nothing(s: State)
    ensures AcceptSingles(s, []) == Some(s)
  {
  }

  // ---------------------------------------------------------------- one step

  /** A flush of one vCPU leaves the others as they were. */
  lemma FlushStepTracks(s: State, r: Recorder, i: nat)
    requires Tracks(s, r) && i < |r.batches|
    ensures Countable(r.batches[i]) && Sized(FlushStep(r, i).frames)
    ensures var t := AcceptSingles(s, FlushStep(r, i).frames); t.Some? && Tracks(t.value, FlushStep(r, i).next)
  {
    hide AcceptSingle, AcceptSingles, Flushed, Recording, Positions;
    assert Recording(s, r.capture, i, r.batches[i]);
    FlushAccepted(s, r.capture, i, r.batches[i]);
    FlushTracks(s, r, i);
  }

  lemma FlushTracks(s: State, r: Recorder, i: nat)
    requires Tracks(s, r) && i < |r.batches|
    requires Recording(AfterFlush(s, r.capture, i, r.batches[i]), r.capture, i, r.batches[i].(items := []))
    ensures Tracks(AfterFlush(s, r.capture, i, r.batches[i]), r.(batches := r.batches[i := r.batches[i].(items := [])]))
  {
    hide Recording, Positions;
    var c := r.capture;
    var t := AfterFlush(s, c, i, r.batches[i]);
    forall j | 0 <= j < |c.entries| && j != i ensures Recording(t, c, j, r.batches[j]) {
      assert Recording(s, c, j, r.batches[j]);
      SameRecording(s, t, c, c, j, r.batches[j]);
    }
  }

  /** Recording of a vCPU depends only on its own entries and its own stream state. */
  lemma SameRecording(s: State, t: State, c: Capture, d: Capture, j: nat, b: Batch)
    requires j < |c.entries| <= MAX_SOURCES && j < |d.entries| <= MAX_SOURCES && Recording(s, c, j, b)
    requires s.sources[j] == t.sources[j] && c.entries[j] == d.entries[j] && c.capacity == d.capacity
    requires c.known == d.known
    ensures Recording(t, d, j, b)
  {
    hide Positions, ContextItems, Follows;
  }

  lemma MorePositions(source: Source, positions: seq<nat>, more: seq<nat>, n: nat)
    requires Follows(source, positions, n) && positions <= more
    ensures Follows(source, more, n)
  {
  }

  /** A recorded block: its row, if retained, joins the buffer of its own vCPU. */
  lemma EnterRecords(s: State, c: Capture, i: nat, b: Batch, entry: Entry)
    requires i < |c.entries| <= MAX_SOURCES && Recording(s, c, i, b) && |c.entries[i]| < MAX64
    requires ValidMode(c.known, entry.context)
    requires Retains(c, i, entry) ==> Joins(b, false, RowItem(c, i, entry)) || b.items == []
    ensures var next := c.(entries := c.entries[i := c.entries[i] + [entry]]);
      Recording(s, next, i, if Retains(c, i, entry) then Joining(b, false, RowItem(c, i, entry)) else b)
  {
    hide Items, Positions, Follows, ValidMode, Retains, Joins, Joining, RowItem, Buffered;
    var next := c.(entries := c.entries[i := c.entries[i] + [entry]]);
    var after := if Retains(c, i, entry) then Joining(b, false, RowItem(c, i, entry)) else b;
    EnterBuffers(c, i, b, entry, after);
    MorePositions(s.sources[i], Positions(c.entries[i], c.capacity), Positions(next.entries[i], c.capacity),
                  |Items(c, i)| - |b.items|);
    forall e | 0 <= e < |next.entries[i]| ensures ValidMode(c.known, next.entries[i][e].context) {
      if e < |c.entries[i]| { assert next.entries[i][e] == c.entries[i][e]; }
    }
  }

  /** The buffer after a block: the newest retained rows, with as many out as before. */
  lemma EnterBuffers(c: Capture, i: nat, b: Batch, entry: Entry, after: Batch)
    requires i < |c.entries| <= MAX_SOURCES && Buffered(c, i, b)
    requires Retains(c, i, entry) ==> Joins(b, false, RowItem(c, i, entry)) || b.items == []
    requires after == if Retains(c, i, entry) then Joining(b, false, RowItem(c, i, entry)) else b
    ensures var next := c.(entries := c.entries[i := c.entries[i] + [entry]]);
      && Buffered(next, i, after) && |Items(next, i)| - |after.items| == |Items(c, i)| - |b.items| >= 0
      && Positions(c.entries[i], c.capacity) <= Positions(next.entries[i], c.capacity)
  {
    hide Positions, ContextItems, Changes, ContextBytes, Joins, Joined;
    var next := c.(entries := c.entries[i := c.entries[i] + [entry]]);
    ItemsStep(c.entries[i], entry, c.capacity, c.known);
    var items := Items(c, i);
    if Retains(c, i, entry) {
      var item := RowItem(c, i, entry);
      JoinsReduced(c, i, b, item);
      assert Items(next, i) == items + [item];
      assert after == Batch(ReducedContext, b.next + 1, b.items + [item]);
      SuffixGrows(items, item, |items| - |b.items|);
    } else {
      assert Items(next, i) == items;
    }
  }

  lemma SuffixGrows(items: seq<Item>, item: Item, k: nat)
    requires k <= |items|
    ensures (items + [item])[k..] == items[k..] + [item]
  {
  }

  lemma EnterTracks(s: State, r: Recorder, i: nat, entry: Entry)
    requires Tracks(s, r) && i < |r.batches| && ValidMode(r.capture.known, entry.context)
    ensures Countable(r.batches[i])
    ensures var step := EnterStep(r, i, entry);
      (step.Failed? <==> |r.capture.entries[i]| >= MAX64) &&
      (step.Continued? ==>
        Sized(step.frames) && AcceptSingles(s, step.frames).Some? &&
        Tracks(AcceptSingles(s, step.frames).value, step.next))
  {
    hide AcceptSingle, AcceptSingles, Flushed, Recording, Positions, Retains, RowItem, Joins, Joining;
    var c, b := r.capture, r.batches[i];
    assert Recording(s, c, i, b);
    FlushAccepted(s, c, i, b);
    if |c.entries[i]| < MAX64 {
      if !Retains(c, i, entry) {
        Nothing(s);
        EnterRecords(s, c, i, b, entry);
        OthersTrack(s, r, i, entry, b);
        assert r.batches[i := b] == r.batches;
      } else if Joins(b, false, RowItem(c, i, entry)) {
        Nothing(s);
        EnterRecords(s, c, i, b, entry);
        OthersTrack(s, r, i, entry, Joining(b, false, RowItem(c, i, entry)));
      } else {
        FlushTracks(s, r, i);
        var t, empty := AfterFlush(s, c, i, b), b.(items := []);
        var q := r.(batches := r.batches[i := empty]);
        EnterRecords(t, c, i, empty, entry);
        JoiningEmpty(b, RowItem(c, i, entry));
        OthersTrack(t, q, i, entry, Joining(b, false, RowItem(c, i, entry)));
        assert q.batches[i := Joining(b, false, RowItem(c, i, entry))]
               == r.batches[i := Joining(b, false, RowItem(c, i, entry))];
      }
    }
  }

  lemma JoiningEmpty(b: Batch, item: Item)
    requires !Joins(b, false, item)
    ensures Joining(b.(items := []), false, item) == Joining(b, false, item)
  {
    hide Joins;
  }

  lemma OthersTrack(s: State, r: Recorder, i: nat, entry: Entry, b: Batch)
    requires Tracks(s, r) && i < |r.batches|
    requires var next := r.capture.(entries := r.capture.entries[i := r.capture.entries[i] + [entry]]);
      Recording(s, next, i, b)
    ensures var next := r.capture.(entries := r.capture.entries[i := r.capture.entries[i] + [entry]]);
      Tracks(s, Recorder(next, r.batches[i := b]))
  {
    hide Recording;
    var c := r.capture;
    var next := c.(entries := c.entries[i := c.entries[i] + [entry]]);
    forall j | 0 <= j < |c.entries| && j != i ensures Recording(s, next, j, r.batches[j]) {
      assert Recording(s, c, j, r.batches[j]);
      SameRecording(s, s, c, next, j, r.batches[j]);
    }
  }

  // ---------------------------------------------------------------- whole captures

  predicate Legal(r: Recorder, e: Event) {
    |r.batches| == |r.capture.entries| && e.source < |r.batches| && Countable(r.batches[e.source]) &&
    (e.Enter? ==> ValidMode(r.capture.known, e.entry.context))
  }

  function StepRecorder(r: Recorder, e: Event): Step {
    if !Legal(r, e) then Failed
    else match e case Enter(i, entry) => EnterStep(r, i, entry) case Flush(i) => FlushStep(r, i)
  }

  function RunRecorder(r: Recorder, events: seq<Event>): Step {
    if events == [] then Continued(r, [])
    else
      match RunRecorder(r, events[..|events| - 1])
      case Failed => Failed
      case Continued(q, frames) =>
        match StepRecorder(q, events[|events| - 1])
        case Failed => Failed
        case Continued(next, more) => Continued(next, frames + more)
  }

  /** No such vCPU, an impossible context mode, or a block counter that is already full. */
  predicate Rejects(r: Recorder, e: Event)
    requires |r.batches| <= |r.capture.entries|
  {
    || e.source >= |r.batches|
    || (e.Enter? && (!ValidMode(r.capture.known, e.entry.context) || |r.capture.entries[e.source]| >= MAX64))
  }

  lemma StepTracks(s: State, r: Recorder, e: Event)
    requires Tracks(s, r)
    ensures var step := StepRecorder(r, e);
      && (step.Failed? <==> Rejects(r, e))
      && (step.Continued? ==>
        Sized(step.frames) && AcceptSingles(s, step.frames).Some? &&
        Tracks(AcceptSingles(s, step.frames).value, step.next))
  {
    hide AcceptSingle, AcceptSingles, EnterStep, FlushStep, ValidMode, Countable, Recording;
    if e.source < |r.batches| {
      match e
      case Flush(i) =>
        FlushStepTracks(s, r, i);
        FlushContinues(r, i);
      case Enter(i, entry) =>
        BatchCountable(s, r, i);
        if ValidMode(r.capture.known, entry.context) { EnterTracks(s, r, i, entry); }
    }
  }

  lemma FlushContinues(r: Recorder, i: nat)
    requires i < |r.batches| && Countable(r.batches[i])
    ensures FlushStep(r, i).Continued?
  {
  }

  lemma BatchCountable(s: State, r: Recorder, i: nat)
    requires Tracks(s, r) && i < |r.batches|
    ensures Countable(r.batches[i])
  {
    hide Follows, Positions, ContextItems, ValidMode;
    assert Recording(s, r.capture, i, r.batches[i]);
  }

  /** Every frame of every run of block entries and flushes is accepted. */
  lemma {:induction false} RunTracks(s: State, r: Recorder, events: seq<Event>)
    requires Tracks(s, r) && RunRecorder(r, events).Continued?
    ensures var run := RunRecorder(r, events);
      && Sized(run.frames) && AcceptSingles(s, run.frames).Some?
      && Tracks(AcceptSingles(s, run.frames).value, run.next)
  {
    hide AcceptSingle, AcceptSingles, StepRecorder, Tracks, ValidMode;
    if events == [] {
      Nothing(s);
    } else {
      var front, e := events[..|events| - 1], events[|events| - 1];
      RunTracks(s, r, front);
      var before := RunRecorder(r, front);
      var t := AcceptSingles(s, before.frames).value;
      StepTracks(t, before.next, e);
      SinglesAppend(s, before.frames, StepRecorder(before.next, e).frames);
    }
  }

  /** The last flush of vCPUs `0..n`, in order. */
  function FlushAll(r: Recorder, n: nat): Step
    requires n <= |r.batches|
  {
    if n == 0 then Continued(r, [])
    else
      match FlushAll(r, n - 1)
      case Failed => Failed
      case Continued(q, frames) =>
        match StepRecorder(q, Flush(n - 1))
        case Failed => Failed
        case Continued(next, more) => Continued(next, frames + more)
  }

  lemma {:induction false} FlushAllTracks(s: State, r: Recorder, n: nat)
    requires Tracks(s, r) && n <= |r.batches|
    ensures var run := FlushAll(r, n);
      && run.Continued? && Sized(run.frames) && AcceptSingles(s, run.frames).Some?
      && Tracks(AcceptSingles(s, run.frames).value, run.next)
      && run.next.capture == r.capture && |run.next.batches| == |r.batches|
      && forall j :: 0 <= j < n ==> run.next.batches[j].items == []
  {
    hide AcceptSingle, AcceptSingles, Tracks, ValidMode, Flushed;
    if n == 0 {
      Nothing(s);
    } else {
      FlushAllTracks(s, r, n - 1);
      var before := FlushAll(r, n - 1);
      var t := AcceptSingles(s, before.frames).value;
      StepTracks(t, before.next, Flush(n - 1));
      SinglesAppend(s, before.frames, StepRecorder(before.next, Flush(n - 1)).frames);
    }
  }

  /** With nothing buffered the stream is ready for the reports. */
  lemma DrainedPublishes(s: State, r: Recorder)
    requires Tracks(s, r) && Sealable(r.capture) && forall j :: 0 <= j < |r.batches| ==> r.batches[j].items == []
    ensures Publishing(s, r.capture, 0, 0)
  {
    var c := r.capture;
    NoTotals(Window(c).blocks, c.capacity);
    hide TotalDistinct, TotalObserved, TotalOverflow, SourceRows, Positions, ContextItems, SumCounts, ValidMode,
      WindowAcceptance.Closable;
    forall j | 0 <= j < MAX_SOURCES ensures SourceStage(s.sources[j], c, 0, 0, j) {
      if j < |c.entries| {
        assert Recording(s, c, j, r.batches[j]);
        ItemSizes(c, j);
        WindowAcceptance.NoSum(ReducedRows(c, j));
      }
    }
  }

  /**
   * A whole reduced capture: any block entries with valid context modes, in any
   * order over the vCPUs, with buffers flushed at any time. Every frame up to and
   * including Complete is accepted, provided the totals fit 64 bits as `close` checks.
   */
  lemma CaptureAccepted(s: State, r: Recorder, events: seq<Event>)
    requires Tracks(s, r) && RunRecorder(r, events).Continued? && Sealable(RunRecorder(r, events).next.capture)
    ensures var run := RunRecorder(r, events);
      var flushed := FlushAll(run.next, |run.next.batches|);
      && flushed.Continued? && flushed.next.capture == run.next.capture
      && Sized(run.frames + flushed.frames + Sealing(run.next.capture))
      && AcceptSingles(s, run.frames + flushed.frames + Sealing(run.next.capture)).Some?
      && AcceptSingles(s, run.frames + flushed.frames + Sealing(run.next.capture)).value.finished
  {
    hide AcceptSingle, AcceptSingles, Sealing, RunRecorder, FlushAll, Recording, Sealable, Publishing;
    RunTracks(s, r, events);
    var run := RunRecorder(r, events);
    var t := AcceptSingles(s, run.frames).value;
    FlushAllTracks(t, run.next, |run.next.batches|);
    var flushed := FlushAll(run.next, |run.next.batches|);
    var u := AcceptSingles(t, flushed.frames).value;
    DrainedPublishes(u, flushed.next);
    SealingAccepted(u, run.next.capture);
    SinglesAppend(s, run.frames, flushed.frames);
    SinglesAppend(s, run.frames + flushed.frames, Sealing(run.next.capture));
  }

  /** A capture starts with empty buffers and a stream that has just taken Hello. */
  lemma StartTracks(r: Recorder, h: Header)
    requires |r.batches| == |r.capture.entries| <= MAX_SOURCES
    requires r.capture.capacity <= MAX_TRANSITION_SLOTS && r.capture.known <= MAX64
    requires forall j :: 0 <= j < |r.batches| ==> r.batches[j] == Batch(Blocks, 0, []) && r.capture.entries[j] == []
    requires h.kind == Hello && LegalHeader(h) && h.version == VERSION
    requires FeaturesOf(h.detail).observationReduction && !FeaturesOf(h.detail).contextFilter
    ensures AcceptSingle(Initial(), h, []).Some? && Tracks(AcceptSingle(Initial(), h, []).value, r)
  {
    HelloReduces(h);
    hide FeaturesOf, AcceptSingle, Initial, Recording, FreshSource, LegalHeader, Reducing;
    var s := AcceptSingle(Initial(), h, []).value;
    forall j | 0 <= j < |r.capture.entries| ensures Recording(s, r.capture, j, r.batches[j]) {
      NothingRecorded(s, r.capture, j);
    }
  }

  lemma HelloReduces(h: Header)
    requires h.kind == Hello && LegalHeader(h) && h.version == VERSION
    requires FeaturesOf(h.detail).observationReduction && !FeaturesOf(h.detail).contextFilter
    ensures PayloadSize(h) == 0
    ensures var t := AcceptSingle(Initial(), h, []);
      && t.Some? && Reducing(t.value) && t.value.reducedSources == 0
      && t.value.windows == Windows(1, {}, 0, 0, 0, 0, false, false)
      && forall j :: 0 <= j < MAX_SOURCES ==>
           var source := t.value.sources[j]; source == FreshSource() && !source.seen && !source.ended
  {
    hide FeaturesOf;
  }

  lemma NothingRecorded(s: State, c: Capture, j: nat)
    requires j < |c.entries| <= MAX_SOURCES && c.entries[j] == [] && s.sources[j] == FreshSource()
    ensures Recording(s, c, j, Batch(Blocks, 0, []))
  {
  }
}
