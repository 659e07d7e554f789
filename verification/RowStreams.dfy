/**
A buffer and the validator behind it: rows are appended to a batch, batches are
flushed as frames, and the validator has taken what was flushed. What it will say
to the rows still buffered is known in advance.
*/
module RowStreams {
  import opened Words
  import opened Wire
  import opened Validator
  import opened ValidatorRuns
  import opened RowBatches
  import opened RowAcceptance

  /** A frame on the wire and the rows it carries. */
  datatype Sent = Sent(frame: Frame, rows: seq<Item>)

  function Frames(sent: seq<Sent>): (fs: seq<Frame>)
    ensures |fs| == |sent| && forall i :: 0 <= i < |fs| ==> fs[i] == sent[i].frame
  {
    seq(|sent|, i requires 0 <= i < |sent| => sent[i].frame)
  }

  function MemorySent(sent: seq<Sent>): nat {
    if sent == [] then 0 else MemorySent(sent[..|sent| - 1]) + MemoryCount(sent[|sent| - 1].rows)
  }

  /** No frame holds two neighbouring contexts. */
  predicate Apart(sent: seq<Sent>) {
    forall i :: 0 <= i < |sent| ==> NoTwins(sent[i].rows)
  }

  /** What is flushed: nothing when nothing is buffered. */
  function Drained(index: nat, b: Batch): seq<Sent> {
    if b.items == [] || (b.kind != RegisterSchema && |b.items| > b.next) then []
    else [Sent(BatchFrame(index, b), b.items)]
  }

  /** What makes room for a row. */
  function MadeRoom(f: Features, index: nat, b: Batch, x: Item): seq<Sent> {
    if Joins(b, f.mixed, x) then [] else Drained(index, b)
  }

  // ---------------------------------------------------------------- the invariant

  /** The buffer is well formed and ends where the source will be. */
  ghost predicate Buffered(f: Features, b: Batch, end: Source) {
    Valid(b, f.mixed) && RawRows(f, b.items) && |b.items| <= b.next && end.next == b.next
  }

  /** The validator has taken all but the buffered rows, and these lead its source to `end`. */
  ghost predicate Linked(s: State, index: nat, b: Batch, end: Source)
    requires RawRows(s.features, b.items) && index < MAX_SOURCES
  {
    s.sources[index].next + |b.items| == b.next && Follow(s.features, index, s.sources[index], b.items) == Some(end)
  }

  /** `t` is `s` with one source moved on and `rows` more memory rows counted. */
  ghost predicate OnlySource(s: State, t: State, index: nat, rows: nat)
    requires index < MAX_SOURCES
  {
    && t == s.(sources := s.sources[index := t.sources[index]], sourceDataSeen := t.sourceDataSeen,
               filterRows := t.filterRows)
    && t.filterRows == s.filterRows + (if s.features.contextFilter then rows else 0)
  }

  ghost predicate Accepted(s: State, sent: seq<Sent>) {
    Apart(sent) && !FilterFull(s, MemorySent(sent))
  }

  /**
   * From `s`, sending `sent` is accepted exactly when no frame holds neighbouring
   * contexts and the filter count has room; the batch then links to the new state.
   */
  ghost predicate Leads(s: State, index: nat, b: Batch, sent: seq<Sent>, end: Source)
    requires index < MAX_SOURCES
  {
    && Buffered(s.features, b, end) && Sized(Frames(sent))
    && var r := AcceptAll(s, Frames(sent));
       && (r.Some? <==> Accepted(s, sent))
       && (r.Some? ==> OnlySource(s, r.value, index, MemorySent(sent)) && Linked(r.value, index, b, end))
  }

  lemma LeadsStart(s: State, index: nat, b: Batch, end: Source)
    requires index < MAX_SOURCES && Buffered(s.features, b, end) && Linked(s, index, b, end)
    ensures Leads(s, index, b, [], end)
  {
    hide Valid, RawRows, Follow;
    assert Frames([]) == [];
    assert s.sources[index := s.sources[index]] == s.sources;
  }

  lemma RawFits(f: Features, x: Item)
    requires RawRow(f, x)
    ensures Fits(f.mixed, x) && x.kind != RegisterSchema && x.kind != Mixed
  {
  }

  lemma BatchKind(f: Features, b: Batch)
    requires Valid(b, f.mixed) && RawRows(f, b.items) && b.items != []
    ensures b.kind == Mixed || RunKind(b.kind)
    ensures b.kind == Mixed ==> f.mixed
  {
    assert RawRow(f, b.items[0]);
    BatchKinds(b, f.mixed);
  }

  lemma SentAppend(sent: seq<Sent>, x: Sent)
    ensures Frames(sent + [x]) == Frames(sent) + [x.frame]
    ensures MemorySent(sent + [x]) == MemorySent(sent) + MemoryCount(x.rows)
    ensures Apart(sent + [x]) <==> Apart(sent) && NoTwins(x.rows)
  {
    hide MemoryCount, NoTwins;
    assert (sent + [x])[..|sent|] == sent;
    if Apart(sent + [x]) {
      assert (sent + [x])[|sent|] == x;
      forall i | 0 <= i < |sent| ensures NoTwins(sent[i].rows) { assert (sent + [x])[i] == sent[i]; }
    }
  }

  lemma OneMoreFrame(s: State, frames: seq<Frame>, frame: Frame)
    requires Sized(frames) && WellSized(frame)
    ensures Sized(frames + [frame])
    ensures AcceptAll(s, frames + [frame])
            == match AcceptAll(s, frames) case None => None case Some(t) => Accept(t, frame)
  {
    hide Accept;
    assert (frames + [frame])[..|frames|] == frames;
  }

  // ---------------------------------------------------------------- steps

  lemma EmptyBuffer(f: Features, b: Batch, end: Source)
    requires Buffered(f, b, end)
    ensures Buffered(f, b.(items := []), end)
  {
    NoItems();
    hide Grouped, RunsBytes, Joined, Fits;
  }

  /** Flushing sends the buffered rows. */
  lemma FlushLeads(s: State, index: nat, b: Batch, sent: seq<Sent>, end: Source)
    requires Live(s) && index < MAX_SOURCES && Leads(s, index, b, sent, end)
    ensures Leads(s, index, b.(items := []), sent + Drained(index, b), end)
  {
    hide Valid, RawRows, Follow, AcceptAll, Drained, BatchFrame, Apart, FilterFull, MemorySent;
    EmptyBuffer(s.features, b, end);
    if b.items == [] {
      NothingDrained(index, b);
      assert sent + [] == sent;
    } else {
      FlushedLeads(s, index, b, sent, end);
    }
  }

  lemma NothingDrained(index: nat, b: Batch)
    requires b.items == []
    ensures Drained(index, b) == []
  {
  }

  lemma FlushedLeads(s: State, index: nat, b: Batch, sent: seq<Sent>, end: Source)
    requires Live(s) && index < MAX_SOURCES && Leads(s, index, b, sent, end) && b.items != []
    requires Buffered(s.features, b.(items := []), end)
    ensures Leads(s, index, b.(items := []), sent + Drained(index, b), end)
  {
    hide Valid, RawRows, Follow, AcceptAll, BatchFrame, Apart, MemorySent, Live, Applied, NoTwins, MemoryCount, Frames,
      FilterFull, OnlySource, Accept;
    var x := Sent(BatchFrame(index, b), b.items);
    assert Drained(index, b) == [x];
    SentAppend(sent, x);
    BatchKind(s.features, b);
    FrameSized(s.features, index, b);
    OneMoreFrame(s, Frames(sent), x.frame);
    var r := AcceptAll(s, Frames(sent));
    if r.Some? {
      var t := r.value;
      SourceLive(s, t, index, MemorySent(sent));
      BatchApplied(t, index, b, s.features.mixed);
      AppliedLinked(s, t, index, b, MemorySent(sent), end);
      FilterAfter(s, t, index, MemorySent(sent), MemoryCount(b.items));
    } else {
      FilterSplit(s, MemorySent(sent), MemoryCount(b.items));
    }
  }

  lemma FilterAfter(s: State, t: State, index: nat, a: nat, b: nat)
    requires index < MAX_SOURCES && OnlySource(s, t, index, a) && !FilterFull(s, a)
    ensures FilterFull(s, a + b) <==> FilterFull(t, b)
  {
  }

  lemma FrameSized(f: Features, index: nat, b: Batch)
    requires Valid(b, f.mixed) && RawRows(f, b.items) && b.items != [] && |b.items| <= b.next && index < MAX_SOURCES
    ensures WellSized(BatchFrame(index, b))
  {
    BatchKind(f, b);
    BatchKinds(b, f.mixed);
    if b.kind == Mixed {
      MixedBatch(index, b);
    } else {
      JoinedSizes(f, b.items, b.kind);
    }
  }

  lemma SourceLive(s: State, t: State, index: nat, rows: nat)
    requires Live(s) && index < MAX_SOURCES && OnlySource(s, t, index, rows)
    ensures Live(t) && t.features == s.features
  {
  }

  lemma FilterSplit(s: State, a: nat, b: nat)
    ensures FilterFull(s, a + b) <==>
      FilterFull(s, a) || (s.features.contextFilter && b > 0 && s.filterRows + a + b > MAX64)
  {
  }

  lemma AppliedLinked(s: State, t: State, index: nat, b: Batch, rows: nat, end: Source)
    requires index < MAX_SOURCES && OnlySource(s, t, index, rows) && RawRows(s.features, b.items) && b.items != []
    requires Linked(t, index, b, end) && end.next == b.next
    ensures var r := Applied(t, index, b.items);
      && (r.None? <==> FilterFull(t, MemoryCount(b.items)))
      && (r.Some? ==> OnlySource(s, r.value, index, rows + MemoryCount(b.items))
                      && Linked(r.value, index, b.(items := []), end))
  {
    hide RawRows, Follow, MemoryCount;
    NothingFollows(t.features, index, end);
    NoRawRows(t.features);
    var r := Applied(t, index, b.items);
    if r.Some? { assert t.sources[index := end] == s.sources[index := end]; }
  }

  lemma NoRawRows(f: Features)
    ensures RawRows(f, [])
  {
  }

  /** One more row, which leads its source from `end` to `next`. */
  lemma PutLeads(s: State, index: nat, b: Batch, sent: seq<Sent>, end: Source, x: Item, next: Source)
    requires Live(s) && index < MAX_SOURCES && Leads(s, index, b, sent, end)
    requires RawRow(s.features, x) && SourceRow(s.features, index, end, x) == Some(next)
    ensures Leads(s, index, Joining(b, s.features.mixed, x), sent + MadeRoom(s.features, index, b, x), next)
    ensures Joining(b, s.features.mixed, x).next == b.next + 1
  {
    hide Valid, RawRows, RawRow, Follow, AcceptAll, Drained, BatchFrame, Apart, FilterFull, MemorySent, Joins,
      SourceRow, Joining, Frames;
    var f := s.features;
    SourceRowNext(f, index, end, x);
    RawFits(f, x);
    JoiningShape(b, f.mixed, x);
    JoiningValid(b, f.mixed, x);
    if Joins(b, f.mixed, x) {
      assert sent + [] == sent;
      JoinLeads(s, index, b, sent, end, x, next);
    } else {
      FlushLeads(s, index, b, sent, end);
      JoinLeads(s, index, b.(items := []), sent + Drained(index, b), end, x, next);
    }
  }

  lemma JoiningShape(b: Batch, mixed: bool, x: Item)
    requires x.kind != RegisterSchema
    ensures Joining(b, mixed, x).next == b.next + 1
    ensures Joining(b, mixed, x).items == (if Joins(b, mixed, x) then b.items else []) + [x]
  {
    hide Joins;
  }

  lemma JoinLeads(s: State, index: nat, b: Batch, sent: seq<Sent>, end: Source, x: Item, next: Source)
    requires index < MAX_SOURCES && Leads(s, index, b, sent, end)
    requires RawRow(s.features, x) && SourceRow(s.features, index, end, x) == Some(next) && next.next == end.next + 1
    ensures forall c: Batch :: c.items == b.items + [x] && c.next == b.next + 1 && Valid(c, s.features.mixed) ==>
      Leads(s, index, c, sent, next)
  {
    hide Valid, Follow, AcceptAll, Apart, FilterFull, MemorySent, SourceRow, RawRow, Frames;
    var r := AcceptAll(s, Frames(sent));
    FollowAppend(s.features, index, if r.Some? then r.value.sources[index] else end, b.items, x);
  }
}
