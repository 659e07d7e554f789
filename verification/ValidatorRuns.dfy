/**
What holds of every accepted trace: mixed frames stand for their runs, source
sequences are dense, and every source that is announced ends with one terminator.
*/
module ValidatorRuns {
  import opened Words
  import opened Wire
  import opened Transitions
  import opened Validator

  predicate Sized(frames: seq<Frame>) {
    forall i :: 0 <= i < |frames| ==> WellSized(frames[i])
  }

  // ---------------------------------------------------------------- mixed frames and concatenation

  lemma {:induction false} SinglesAppend(s: State, a: seq<Frame>, b: seq<Frame>)
    requires Sized(a) && Sized(b)
    ensures AcceptSingles(s, a + b) ==
      match AcceptSingles(s, a) { case None => None case Some(t) => AcceptSingles(t, b) }
  {
    hide AcceptSingle;
    if b == [] {
      assert a + b == a;
    } else {
      var front := b[..|b| - 1];
      SinglesAppend(s, a, front);
      assert (a + b)[..|a + b| - 1] == a + front;
    }
  }

  /** A trace is accepted in two parts as it is in one. */
  lemma {:induction false} AllAppend(s: State, a: seq<Frame>, b: seq<Frame>)
    requires Sized(a) && Sized(b)
    ensures Sized(a + b)
    ensures AcceptAll(s, a + b) == match AcceptAll(s, a) case None => None case Some(t) => AcceptAll(t, b)
  {
    hide Accept;
    if b == [] {
      assert a + b == a;
    } else {
      var front := b[..|b| - 1];
      AllAppend(s, a, front);
      assert (a + b)[..|a + b| - 1] == a + front;
    }
  }

  /** The state before the last frame of an accepted trace. */
  lemma LastStep(s: State, frames: seq<Frame>, t: State) returns (u: State)
    requires Sized(frames) && frames != [] && AcceptSingles(s, frames) == Some(t)
    ensures Sized(frames[..|frames| - 1]) && AcceptSingles(s, frames[..|frames| - 1]) == Some(u)
    ensures WellSized(frames[|frames| - 1])
    ensures AcceptSingle(u, frames[|frames| - 1].header, frames[|frames| - 1].payload) == Some(t)
  {
    hide AcceptSingle;
    assert WellSized(frames[|frames| - 1]);
    u := AcceptSingles(s, frames[..|frames| - 1]).value;
  }

  /** A trace with every mixed frame replaced by its runs. */
  function Flat(frames: seq<Frame>): (flat: Option<seq<Frame>>)
    requires Sized(frames)
    ensures flat.Some? ==> Sized(flat.value)
  {
    if frames == [] then Some([])
    else
      match (Flat(frames[..|frames| - 1]), Expand(frames[|frames| - 1]))
      case (Some(front), Some(last)) => Some(front + last)
      case _ => None
  }

  /** A mixed frame leaves the same state as its runs sent separately, over whole traces. */
  lemma {:induction false} MixedIsItsRuns(s: State, frames: seq<Frame>)
    requires Sized(frames) && AcceptAll(s, frames).Some?
    ensures Flat(frames).Some? && AcceptSingles(s, Flat(frames).value) == AcceptAll(s, frames)
  {
    hide AcceptSingle, Expand;
    if frames == [] {
    } else {
      var front, last := frames[..|frames| - 1], frames[|frames| - 1];
      MixedIsItsRuns(s, front);
      var t := AcceptAll(s, front).value;
      assert WellSized(last);
      ExpandMeaning(t, last);
      SinglesAppend(s, Flat(front).value, Expand(last).value);
    }
  }

  lemma ExpandMeaning(t: State, frame: Frame)
    requires WellSized(frame) && Accept(t, frame).Some?
    ensures Expand(frame).Some? && AcceptSingles(t, Expand(frame).value) == Accept(t, frame)
  {
    hide AcceptSingle, RunsAt;
    if frame.header.kind != Mixed {
      assert [frame][..0] == [];
    }
  }

  // ---------------------------------------------------------------- sequences

  /** The sequence numbers of the rows a frame carries for one vCPU. */
  function RowNumbers(h: Header, source: nat): seq<nat> {
    if h.source == source && (Sequenced(h.kind) || h.kind == ReducedContext)
    then Range(h.sequence, h.count) else []
  }

  function Range(first: nat, count: nat): (r: seq<nat>)
    ensures |r| == count && forall i :: 0 <= i < count ==> r[i] == first + i
  {
    seq(count, i => first + i)
  }

  function AllRowNumbers(frames: seq<Frame>, source: nat): seq<nat> {
    if frames == [] then []
    else AllRowNumbers(frames[..|frames| - 1], source) + RowNumbers(frames[|frames| - 1].header, source)
  }

  predicate EndsSource(h: Header, source: nat) {
    h.kind == SourceEnd && h.source == source
  }

  /** Rows continue the source, nothing follows its terminator, and rows make it seen. */
  predicate Continues(h: Header, source: nat, before: Source, after: Source) {
    && before.next <= after.next
    && RowNumbers(h, source) == Range(before.next, after.next - before.next)
    && (before.ended ==> after.ended && after.next == before.next && !EndsSource(h, source))
    && (EndsSource(h, source) ==> after.ended && h.sequence == before.next == after.next)
    && (after.ended ==> before.ended || EndsSource(h, source))
    && (before.seen ==> after.seen)
    && (after.next > before.next || EndsSource(h, source) ==> after.seen)
  }

  /** A started stream that takes data frames of this version. */
  predicate Running(s: State, h: Header) {
    s.started && !s.finished && h.version == s.version && (s.features.executableLayout ==> s.layoutSeen)
  }

  /** On a running stream a legal frame is decided by the rule of its kind. */
  lemma Dispatch(s: State, h: Header, b: seq<byte>)
    requires Running(s, h) && LegalHeader(h) && |b| == PayloadSize(h)
    ensures h.kind == BlockTransitions ==>
      h.count * TRANSITION_BYTES <= |b| && AcceptSingle(s, h, b) == AcceptTransitions(s, h, TransitionRows(b, h.count))
    ensures h.kind == TransitionWindow ==> WINDOW_BYTES <= |b| && AcceptSingle(s, h, b) == AcceptWindow(s, h, b)
    ensures h.kind == ReducedContext ==>
      0 < h.count && h.count * REDUCED_CONTEXT_BYTES <= |b| && AcceptSingle(s, h, b) == AcceptReducedContext(s, h, b)
    ensures h.kind == ObservationSummary ==> SUMMARY_BYTES <= |b| && AcceptSingle(s, h, b) == AcceptSummary(s, h, b)
    ensures h.kind == ContextFilter ==> FILTER_BYTES <= |b| && AcceptSingle(s, h, b) == AcceptFilter(s, b)
    ensures h.kind == KernelRequest ==> AcceptSingle(s, h, b) == AcceptKernel(s, h)
    ensures h.kind == Complete ==> AcceptSingle(s, h, b) == AcceptComplete(s)
    ensures h.kind == RegisterSchema || Sequenced(h.kind) ==> AcceptSingle(s, h, b) == AcceptSource(s, h, b)
  {
    hide TransitionRows, AcceptSource, AcceptFilter, AcceptComplete, AcceptReducedContext, AcceptWindow, AcceptLayout,
      AcceptKernel, AcceptSummary, AcceptTransitions, CompatibleFeatures, LegalTerminalReport, FeaturesOf;
  }

  lemma LegalFields(h: Header)
    requires LegalHeader(h)
    ensures h.source < MAX_SOURCES && h.count <= MAX_ROWS && (h.kind == SourceEnd ==> h.count == 0)
  {
  }

  lemma RowsContinue(s: State, h: Header, b: seq<byte>, after: Source)
    requires h.source < MAX_SOURCES
    requires h.kind == AddressContext ==> CONTEXT_BYTES <= |b|
    requires h.kind == Memory ==> |b| == h.detail
    requires AcceptRows(s, h, b) == Some(after)
    ensures var before := s.sources[h.source];
      && after.next == before.next && after.seen == before.seen && after.data == before.data
      && after.ended == before.ended && after.windowRows == before.windowRows
      && (h.kind != Registers ==> after.registers == before.registers)
  {
    hide Samples, Apply, ValidAccess, ValidContext;
  }

  lemma SourceContinues(s: State, h: Header, b: seq<byte>, t: State, source: nat)
    requires LegalHeader(h) && |b| == PayloadSize(h) && (h.kind == RegisterSchema || Sequenced(h.kind))
    requires AcceptSource(s, h, b) == Some(t) && source < MAX_SOURCES
    ensures Continues(h, source, s.sources[source], t.sources[source])
  {
    LegalFields(h);
    hide LegalHeader, AcceptRows, Declare, BaselineComplete;
    if h.kind != RegisterSchema && source == h.source {
      RowsContinue(s, h, b, AcceptRows(s, h, b).value);
    }
  }

  lemma TransitionsContinue(s: State, h: Header, rows: seq<Row>, t: State, source: nat)
    requires h.source < MAX_SOURCES && |rows| == h.count && h.kind == BlockTransitions
    requires AcceptTransitions(s, h, rows) == Some(t) && source < MAX_SOURCES
    ensures Continues(h, source, s.sources[source], t.sources[source])
  {
    hide NewRows, SumCounts, KeysOf;
  }

  lemma ReducedContinues(s: State, h: Header, b: seq<byte>, t: State, source: nat)
    requires h.source < MAX_SOURCES && 0 < h.count && h.count * REDUCED_CONTEXT_BYTES <= |b| && h.kind == ReducedContext
    requires AcceptReducedContext(s, h, b) == Some(t) && source < MAX_SOURCES
    ensures Continues(h, source, s.sources[source], t.sources[source])
  {
    hide ValidReducedRow, ReducedBlock;
  }

  lemma SummaryContinues(s: State, h: Header, b: seq<byte>, t: State, source: nat)
    requires h.source < MAX_SOURCES && SUMMARY_BYTES <= |b| && h.kind == ObservationSummary
    requires AcceptSummary(s, h, b) == Some(t) && source < MAX_SOURCES
    ensures Continues(h, source, s.sources[source], t.sources[source])
  {
    hide ClosesSource, ReductionAt;
  }

  lemma WindowContinues(s: State, h: Header, b: seq<byte>, t: State, source: nat)
    requires WINDOW_BYTES <= |b| && h.kind == TransitionWindow
    requires AcceptWindow(s, h, b) == Some(t) && source < MAX_SOURCES
    ensures Continues(h, source, s.sources[source], t.sources[source])
  {
    hide ClosesWindow, WindowTotalsAt;
  }

  /** Frames of the remaining kinds touch no vCPU state. */
  predicate Global(kind: Kind) {
    kind == Hello || kind == TerminalReport || kind == ExecutableLayout || kind == KernelRequest ||
    kind == GuestEvent || kind == ContextFilter || kind == Error || kind == Complete
  }

  lemma GlobalStep(s: State, h: Header, b: seq<byte>, t: State)
    requires |b| == PayloadSize(h) && AcceptSingle(s, h, b) == Some(t) && Global(h.kind)
    ensures t.sources == s.sources
    ensures h.kind == Complete ==> s.started && AcceptComplete(s) == Some(t)
    ensures h.kind == KernelRequest || h.kind == GuestEvent ==> s.started && AcceptKernel(s, h) == Some(t)
  {
    hide LegalHeader, AcceptSource, AcceptTransitions, AcceptReducedContext, AcceptSummary, AcceptWindow, ClosesFilter,
      BoundaryReady, FilterTotalsAt, AllSeenEnded;
  }

  /** Which rule accepted a frame. */
  lemma SourceStep(s: State, h: Header, b: seq<byte>, t: State)
    requires |b| == PayloadSize(h) && AcceptSingle(s, h, b) == Some(t) && !Global(h.kind)
    ensures LegalHeader(h) && s.started
    ensures h.kind == RegisterSchema || Sequenced(h.kind) ==> AcceptSource(s, h, b) == Some(t)
    ensures h.kind == BlockTransitions ==>
      h.count * TRANSITION_BYTES <= |b| && AcceptTransitions(s, h, TransitionRows(b, h.count)) == Some(t)
    ensures h.kind == ReducedContext ==>
      0 < h.count && h.count * REDUCED_CONTEXT_BYTES <= |b| && AcceptReducedContext(s, h, b) == Some(t)
    ensures h.kind == ObservationSummary ==> SUMMARY_BYTES <= |b| && AcceptSummary(s, h, b) == Some(t)
    ensures h.kind == TransitionWindow ==> WINDOW_BYTES <= |b| && AcceptWindow(s, h, b) == Some(t)
    ensures RegisterSchema == h.kind || Sequenced(h.kind) || h.kind == BlockTransitions || h.kind == ReducedContext ||
            h.kind == ObservationSummary || h.kind == TransitionWindow
  {
    hide AcceptSource, AcceptTransitions, AcceptReducedContext, AcceptSummary, AcceptWindow, AcceptFilter, AcceptKernel,
      AcceptComplete, AcceptLayout, TransitionRows, CompatibleFeatures, LegalTerminalReport, FeaturesOf;
  }

  /** One accepted frame, any source. */
  lemma StepContinues(s: State, h: Header, b: seq<byte>, t: State, source: nat)
    requires |b| == PayloadSize(h) && AcceptSingle(s, h, b) == Some(t) && source < MAX_SOURCES
    ensures Continues(h, source, s.sources[source], t.sources[source])
    ensures h.kind == Complete ==> AllSeenEnded(s)
  {
    hide LegalHeader, AcceptSingle, AcceptSource, AcceptTransitions, AcceptReducedContext, AcceptSummary, AcceptWindow;
    if Global(h.kind) {
      GlobalStep(s, h, b, t);
    } else {
      SourceStep(s, h, b, t);
      LegalFields(h);
      if h.kind == BlockTransitions { TransitionsContinue(s, h, TransitionRows(b, h.count), t, source); }
      else if h.kind == ReducedContext { ReducedContinues(s, h, b, t, source); }
      else if h.kind == ObservationSummary { SummaryContinues(s, h, b, t, source); }
      else if h.kind == TransitionWindow { WindowContinues(s, h, b, t, source); }
      else { SourceContinues(s, h, b, t, source); }
    }
  }

  lemma {:induction false} DenseSequences(frames: seq<Frame>, t: State, source: nat)
    requires Sized(frames) && AcceptSingles(Initial(), frames) == Some(t) && source < MAX_SOURCES
    ensures AllRowNumbers(frames, source) == Range(0, t.sources[source].next)
    ensures t.sources[source].next > 0 ==> t.sources[source].seen
  {
    if frames == [] {
      InitialSources(source);
    } else {
      hide AcceptSingle, AcceptSingles, Initial, RowNumbers, Range;
      var front, last := frames[..|frames| - 1], frames[|frames| - 1];
      var s := LastStep(Initial(), frames, t);
      DenseSequences(front, s, source);
      StepContinues(s, last.header, last.payload, t, source);
      JoinRanges(s.sources[source].next, t.sources[source].next);
    }
  }

  lemma JoinRanges(a: nat, b: nat)
    requires a <= b
    ensures Range(0, a) + Range(a, b - a) == Range(0, b)
  {
  }

  lemma InitialSources(source: nat)
    requires source < MAX_SOURCES
    ensures Initial().sources[source] == FreshSource()
  {
  }

  /** A terminator carries the final row count, and nothing of its source follows it. */
  lemma {:induction false} TerminatorIsLast(frames: seq<Frame>, t: State, source: nat, i: nat)
    requires Sized(frames) && AcceptSingles(Initial(), frames) == Some(t) && source < MAX_SOURCES
    requires i < |frames| && EndsSource(frames[i].header, source)
    ensures t.sources[source].ended && frames[i].header.sequence == t.sources[source].next
    ensures forall j :: i < j < |frames| ==>
      RowNumbers(frames[j].header, source) == [] && !EndsSource(frames[j].header, source)
  {
    hide AcceptSingle, Initial;
    var front, last := frames[..|frames| - 1], frames[|frames| - 1];
    var s := LastStep(Initial(), frames, t);
    StepContinues(s, last.header, last.payload, t, source);
    if i < |front| {
      TerminatorIsLast(front, s, source, i);
      forall j | i < j < |frames|
        ensures RowNumbers(frames[j].header, source) == [] && !EndsSource(frames[j].header, source)
      {
        if j < |front| { assert front[j] == frames[j]; }
      }
    }
  }

  /** Frames by which a source makes itself known: schemas, rows, reduced rows, summaries and terminators. */
  predicate Announces(h: Header, source: nat) {
    h.source == source &&
    (h.kind == RegisterSchema || Sequenced(h.kind) || h.kind == ReducedContext || h.kind == ObservationSummary)
  }

  lemma StepAnnounces(s: State, frame: Frame, t: State, source: nat)
    requires WellSized(frame) && AcceptSingle(s, frame.header, frame.payload) == Some(t) && source < MAX_SOURCES
    requires Announces(frame.header, source)
    ensures t.sources[source].seen
  {
    hide AcceptSingle, LegalHeader, AcceptRows, Declare, BaselineComplete, NeedsBaseline, ClosesSource, ReductionAt,
      ValidReducedRow, ReducedBlock;
    SourceStep(s, frame.header, frame.payload, t);
  }

  lemma {:induction false} AnnouncedIsSeen(frames: seq<Frame>, t: State, source: nat, i: nat)
    requires Sized(frames) && AcceptSingles(Initial(), frames) == Some(t) && source < MAX_SOURCES
    requires i < |frames| && Announces(frames[i].header, source)
    ensures t.sources[source].seen
  {
    hide AcceptSingle, Initial;
    var front, last := frames[..|frames| - 1], frames[|frames| - 1];
    var s := LastStep(Initial(), frames, t);
    if i < |front| {
      AnnouncedIsSeen(front, s, source, i);
      StepContinues(s, last.header, last.payload, t, source);
    } else {
      StepAnnounces(s, last, t, source);
    }
  }

  /** An ended source ended by a terminator frame. */
  lemma {:induction false} EndedHasTerminator(frames: seq<Frame>, t: State, source: nat) returns (i: nat)
    requires Sized(frames) && AcceptSingles(Initial(), frames) == Some(t) && source < MAX_SOURCES
    requires t.sources[source].ended
    ensures i < |frames| && EndsSource(frames[i].header, source)
  {
    hide AcceptSingle, Initial;
    if frames == [] {
      InitialSources(source);
      assert false;
    } else {
      var front, last := frames[..|frames| - 1], frames[|frames| - 1];
      var s := LastStep(Initial(), frames, t);
      StepContinues(s, last.header, last.payload, t, source);
      if EndsSource(last.header, source) {
        i := |front|;
      } else {
        i := EndedHasTerminator(front, s, source);
      }
    }
  }

  /** Rows 0..n-1 with no gap or repeat, then exactly one terminator numbered n. */
  ghost predicate CompleteSource(flat: seq<Frame>, source: nat) {
    exists i :: 0 <= i < |flat| && EndsSource(flat[i].header, source) &&
      AllRowNumbers(flat, source) == Range(0, flat[i].header.sequence) &&
      forall j :: 0 <= j < |flat| && j != i ==>
        !EndsSource(flat[j].header, source) && (j > i ==> RowNumbers(flat[j].header, source) == [])
  }

  /**
  Every trace accepted through Complete, whatever mix of legacy frames and mixed
  runs carried it: each source that made itself known, if only by a register schema,
  is complete in the sense above.
  */
  lemma CompleteTrace(frames: seq<Frame>, t: State, source: nat)
    requires Sized(frames) && AcceptAll(Initial(), frames) == Some(t) && source < MAX_SOURCES
    requires |frames| > 0 && frames[|frames| - 1].header.kind == Complete
    ensures Flat(frames).Some?
    ensures t.sources[source].seen ==> CompleteSource(Flat(frames).value, source)
    ensures (exists i :: 0 <= i < |Flat(frames).value| && Announces(Flat(frames).value[i].header, source)) ==>
      CompleteSource(Flat(frames).value, source)
  {
    hide AcceptSingle, Expand, RunsAt;
    MixedIsItsRuns(Initial(), frames);
    var flat := Flat(frames).value;
    var front, last := frames[..|frames| - 1], frames[|frames| - 1];
    assert Expand(last) == Some([last]) by { ExpandSingle(last); }
    assert flat == Flat(front).value + [last];
    assert flat[..|flat| - 1] == Flat(front).value;
    var s := AcceptSingles(Initial(), flat[..|flat| - 1]).value;
    assert WellSized(last);
    StepContinues(s, last.header, last.payload, t, source);
    DenseSequences(flat, t, source);
    if i: nat :| i < |flat| && Announces(flat[i].header, source) {
      AnnouncedIsSeen(flat, t, source, i);
    }
    if t.sources[source].seen {
      assert s.sources[source].seen by { CompleteKeepsSources(s, last, t); }
      var i := EndedHasTerminator(flat, t, source);
      TerminatorIsLast(flat, t, source, i);
      forall j | 0 <= j < |flat| && j != i
        ensures !EndsSource(flat[j].header, source) && (j > i ==> RowNumbers(flat[j].header, source) == [])
      {
        if j < i && EndsSource(flat[j].header, source) { TerminatorIsLast(flat, t, source, j); }
      }
    }
  }

  lemma ExpandSingle(frame: Frame)
    requires WellSized(frame) && frame.header.kind != Mixed
    ensures Expand(frame) == Some([frame])
  {
  }

  lemma CompleteKeepsSources(s: State, frame: Frame, t: State)
    requires WellSized(frame) && frame.header.kind == Complete
    requires AcceptSingle(s, frame.header, frame.payload) == Some(t)
    ensures t.sources == s.sources
  {
    GlobalStep(s, frame.header, frame.payload, t);
  }
}
