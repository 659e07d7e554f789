/**
Action boundaries in every accepted trace: kernel requests and transition
windows strictly alternate, starting with a request; window identifiers count
1, 2, 3, ...; and Complete comes only when every request has its window.
*/
module BoundaryRuns {
  import opened Words
  import opened Wire
  import opened Transitions
  import opened Validator
  import opened ValidatorRuns

  predicate IsBoundary(kind: Kind) {
    kind == KernelRequest || kind == TransitionWindow
  }

  /** The requests and windows of a trace, in order. */
  function Boundaries(frames: seq<Frame>): seq<Header> {
    if frames == [] then []
    else
      var last := frames[|frames| - 1].header;
      Boundaries(frames[..|frames| - 1]) + if IsBoundary(last.kind) then [last] else []
  }

  /** request, window 1, request, window 2, ... */
  predicate Alternating(log: seq<Header>) {
    forall i :: 0 <= i < |log| ==>
      && (i % 2 == 0 ==> log[i].kind == KernelRequest)
      && (i % 2 == 1 ==> log[i].kind == TransitionWindow && log[i].sequence == i / 2 + 1)
  }

  /** The validator's own window flag and counter after one frame. */
  predicate WindowStep(s: State, h: Header, t: State) {
    && (h.kind == KernelRequest ==> !s.windows.expected && t.windows.expected && t.windows.next == s.windows.next)
    && (h.kind == TransitionWindow ==>
          s.windows.expected && !t.windows.expected &&
          h.sequence == s.windows.next && t.windows.next == s.windows.next + 1)
    && (!IsBoundary(h.kind) ==> t.windows.expected == s.windows.expected && t.windows.next == s.windows.next)
    && (h.kind == Complete ==> !s.windows.expected)
  }

  lemma SourceKeepsWindows(s: State, h: Header, b: seq<byte>, t: State)
    requires LegalHeader(h) && |b| == PayloadSize(h) && (h.kind == RegisterSchema || Sequenced(h.kind))
    requires AcceptSource(s, h, b) == Some(t)
    ensures t.windows == s.windows && t.features == s.features && t.started == s.started
    ensures t.reducedSources == s.reducedSources && t.filterSeen == s.filterSeen
  {
    hide LegalHeader, AcceptRows, Declare, BaselineComplete, NeedsBaseline;
  }

  lemma ReductionKeepsWindows(s: State, h: Header, b: seq<byte>, t: State)
    requires |b| == PayloadSize(h) && AcceptSingle(s, h, b) == Some(t)
    requires h.kind == ReducedContext || h.kind == ObservationSummary
    ensures t.windows == s.windows && t.features == s.features && t.started == s.started
  {
    SourceStep(s, h, b, t);
    hide AcceptSingle, LegalHeader, ClosesSource, ValidReducedRow, ReducedBlock, ReductionAt;
  }

  lemma TransitionsKeepBoundary(s: State, h: Header, rows: seq<Row>, t: State)
    requires h.source < MAX_SOURCES && |rows| == h.count && AcceptTransitions(s, h, rows) == Some(t)
    ensures t.windows.next == s.windows.next && t.windows.expected == s.windows.expected
    ensures t.features == s.features && t.started == s.started
  {
    hide NewRows, SumCounts, KeysOf;
  }

  lemma GlobalKeepsWindows(s: State, h: Header, b: seq<byte>, t: State)
    requires |b| == PayloadSize(h) && AcceptSingle(s, h, b) == Some(t) && Global(h.kind)
    requires h.kind != KernelRequest
    ensures t.windows == s.windows
    ensures s.started ==> t.started && t.features == s.features
    ensures !s.started ==> h.kind == Hello || h.kind == TerminalReport
  {
    hide LegalHeader, AcceptSource, AcceptTransitions, AcceptReducedContext, AcceptSummary, AcceptWindow, ClosesFilter,
      BoundaryReady, FilterTotalsAt, AllSeenEnded, FeaturesOf;
  }

  lemma StepWindows(s: State, h: Header, b: seq<byte>, t: State)
    requires |b| == PayloadSize(h) && AcceptSingle(s, h, b) == Some(t)
    requires t.features.transitionWindows
    ensures WindowStep(s, h, t)
    ensures s.started ==> t.started && t.features == s.features
    ensures !s.started ==> h.kind == Hello || h.kind == TerminalReport
  {
    hide AcceptSingle, AcceptSource, AcceptTransitions, AcceptSummary, AcceptReducedContext, LegalHeader, ClosesWindow,
      WindowTotalsAt, BoundaryReady, AllSeenEnded;
    if Global(h.kind) {
      GlobalStep(s, h, b, t);
      if h.kind != KernelRequest { GlobalKeepsWindows(s, h, b, t); }
    } else {
      SourceStep(s, h, b, t);
      LegalFields(h);
      if h.kind == BlockTransitions { TransitionsKeepBoundary(s, h, TransitionRows(b, h.count), t); }
      else if h.kind == ReducedContext || h.kind == ObservationSummary { ReductionKeepsWindows(s, h, b, t); }
      else if h.kind != TransitionWindow { SourceKeepsWindows(s, h, b, t); }
    }
  }

  /** Alternation over every accepted trace with transition windows. */
  lemma {:induction false} BoundariesAlternate(frames: seq<Frame>, t: State)
    requires Sized(frames) && AcceptSingles(Initial(), frames) == Some(t)
    requires t.features.transitionWindows || !t.started
    ensures Alternating(Boundaries(frames))
    ensures t.windows.expected == (|Boundaries(frames)| % 2 == 1)
    ensures t.windows.next == 1 + |Boundaries(frames)| / 2
    ensures !t.started ==> Boundaries(frames) == []
    ensures frames != [] && frames[|frames| - 1].header.kind == Complete ==> |Boundaries(frames)| % 2 == 0
  {
    hide AcceptSingle;
    if frames == [] {
    } else {
      var front, last := frames[..|frames| - 1], frames[|frames| - 1];
      var s := LastStep(Initial(), frames, t);
      if t.features.transitionWindows {
        StepWindows(s, last.header, last.payload, t);
      } else {
        StillClosed(s, last, t);
      }
      BoundariesAlternate(front, s);
    }
  }

  lemma StillClosed(s: State, frame: Frame, t: State)
    requires WellSized(frame) && AcceptSingle(s, frame.header, frame.payload) == Some(t) && !t.started
    ensures !s.started && t.windows == s.windows && frame.header.kind == TerminalReport
  {
    StepStarted(s, frame.header, frame.payload, t);
    hide LegalHeader;
  }

  lemma StepStarted(s: State, h: Header, b: seq<byte>, t: State)
    requires |b| == PayloadSize(h) && AcceptSingle(s, h, b) == Some(t)
    ensures s.started ==> t.started && t.features == s.features
  {
    hide AcceptSingle, AcceptSource, AcceptTransitions, AcceptSummary, AcceptReducedContext, LegalHeader, ClosesWindow,
      WindowTotalsAt, BoundaryReady, AllSeenEnded;
    if Global(h.kind) {
      GlobalStep(s, h, b, t);
      if h.kind != KernelRequest { GlobalKeepsWindows(s, h, b, t); }
    } else {
      SourceStep(s, h, b, t);
      LegalFields(h);
      if h.kind == BlockTransitions { TransitionsKeepBoundary(s, h, TransitionRows(b, h.count), t); }
      else if h.kind == ReducedContext || h.kind == ObservationSummary { ReductionKeepsWindows(s, h, b, t); }
      else if h.kind != TransitionWindow { SourceKeepsWindows(s, h, b, t); }
    }
  }

  /** The same over whole traces, mixed frames included. */
  lemma TraceBoundariesAlternate(frames: seq<Frame>, t: State)
    requires Sized(frames) && AcceptAll(Initial(), frames) == Some(t)
    requires t.features.transitionWindows || !t.started
    ensures Flat(frames).Some?
    ensures var log := Boundaries(Flat(frames).value);
      && Alternating(log) && t.windows.expected == (|log| % 2 == 1) && t.windows.next == 1 + |log| / 2
      && (frames != [] && frames[|frames| - 1].header.kind == Complete ==> |log| % 2 == 0)
  {
    hide AcceptSingle, Expand, Initial;
    MixedIsItsRuns(Initial(), frames);
    var flat := Flat(frames).value;
    BoundariesAlternate(flat, t);
    if frames != [] && frames[|frames| - 1].header.kind == Complete {
      ExpandSingle(frames[|frames| - 1]);
      assert flat[|flat| - 1] == frames[|frames| - 1];
    }
  }
}
