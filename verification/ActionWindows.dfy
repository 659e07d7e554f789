/**
Action windows end to end: the plugin's begin/end/abort/observe callbacks, its
drain at every action boundary and its final drain, followed frame by frame by
the stream validator. The plugin's `expected` flag mirrors the validator's.
*/
module ActionWindows {
  import opened Words
  import opened Wire
  import opened Transitions
  import opened WindowReducer
  import opened WindowFrames
  import opened WindowAcceptance
  import opened Validator
  import opened ValidatorRuns
  import opened BoundaryRuns

  /** The plugin's state that action windows depend on. */
  datatype Plugin = Plugin(reducer: Model, expected: bool, active: seq<bool>)

  datatype Event =
    | Begin
    | End
    | Abort
    | Observe(source: nat, address: u64)
    | Raw(frame: Frame)            // row-carrying or schema frame of a capture callback
    | Drain(closing: bool)         // the worker's D command
    | Finish                       // the final drain at exit

  const REQUEST: Frame := Frame(Header(KernelRequest, 0, 0, 0, 127, VERSION), [])

  /** A step's result: the next state and the frames it put on the wire, or `fail()`. */
  datatype Step = Failed | Continued(next: Plugin, frames: seq<Frame>)

  function Published'(m: Model): (fs: seq<Frame>)
    ensures forall i :: 0 <= i < |fs| ==> WellSized(fs[i]) && fs[i].header.kind != Mixed
  {
    if m.phase == Idle then [] else Published(m)
  }

  /** Draining at a stopped world: publish the window, then ask for the next action. */
  function DrainStep(p: Plugin, closing: bool): Step {
    var m := p.reducer;
    if false in p.active || m.phase == Opening || m.phase == Recording ||
       (m.phase != Idle && TotalObserved(m.blocks) > MAX64) || (m.phase != Idle) != p.expected
    then Failed
    else Continued(p.(reducer := m.(phase := Idle), expected := !closing),
                   Published'(m) + if closing then [] else [REQUEST])
  }

  /** The drain at exit publishes whatever window is open, without an activity check. */
  function FinishStep(p: Plugin): (r: Step)
    ensures r.Continued? ==> Sized(r.frames)
  {
    var m := p.reducer;
    if (m.phase != Idle && TotalObserved(m.blocks) > MAX64) || (m.phase != Idle) != p.expected then Failed
    else Continued(p.(reducer := m.(phase := Idle), expected := false), Published'(m))
  }

  predicate RawKind(kind: Kind) {
    kind == RegisterSchema || Sequenced(kind)
  }

  function StepPlugin(p: Plugin, e: Event): Step {
    var m := p.reducer;
    match e
    case Begin =>
      if m.phase != Idle || m.window >= MAX64 then Failed
      else Continued(p.(reducer := m.(phase := Recording, window := m.window + 1, blocks := NoBlocks(|m.blocks|))), [])
    case End => if m.phase != Recording then Failed else Continued(p.(reducer := m.(phase := Ended)), [])
    case Abort => if m.phase != Recording then Failed else Continued(p.(reducer := m.(phase := Aborted)), [])
    case Observe(source, address) =>
      if source >= |m.blocks| || m.phase == Idle || |m.blocks[source]| > MAX64 then Failed
      else Continued(p.(reducer := m.(blocks := m.blocks[source := m.blocks[source] + [address]])), [])
    case Raw(frame) =>
      if !WellSized(frame) || !RawKind(frame.header.kind) then Failed
      else if frame.header.kind == SourceEnd && frame.header.source < |p.active|
      then Continued(p.(active := p.active[frame.header.source := false]), [frame])
      else Continued(p, [frame])
    case Drain(closing) => DrainStep(p, closing)
    case Finish => FinishStep(p)
  }

  /** The plugin and a validator that has accepted everything on the wire so far. */
  ghost predicate Mirrors(p: Plugin, s: State) {
    var m := p.reducer;
    && Configurable(|m.blocks|, m.capacity) && |m.blocks| == |p.active| <= MAX_SOURCES
    && s.started && !s.finished && s.version == VERSION
    && s.features.kernel && s.features.transitionWindows && !s.features.observationReduction
    && (s.features.executableLayout ==> s.layoutSeen)
    && s.windows.expected == p.expected
    && s.windows.next == (if m.phase == Idle then m.window + 1 else m.window)
    && (m.phase != Idle ==> 0 < m.window)
    && s.windows.keys == {} && s.windows.observed == 0 && s.windows.sourcesSeen == 0 && !s.windows.rows
    && (s.windows.sources != 0 ==> s.windows.sources == |m.blocks| && s.windows.capacity == m.capacity)
    && (forall i :: 0 <= i < MAX_SOURCES ==> s.sources[i].windowRows == 0)
    && (forall i :: 0 <= i < |p.active| && s.sources[i].ended ==> !p.active[i])
  }

  // ---------------------------------------------------------------- single steps

  lemma MirrorExpects(p: Plugin, s: State)
    requires Mirrors(p, s) && p.reducer.phase != Idle && p.expected
    requires TotalObserved(p.reducer.blocks) <= MAX64 && p.reducer.window < MAX64
    ensures Closable(p.reducer) && Expects(s, p.reducer)
  {
    hide TotalObserved, Configurable;
  }

  /** Publication keeps the mirror, and it is accepted exactly when no row source has been terminated. */
  lemma PublishMirrors(p: Plugin, s: State)
    requires Mirrors(p, s) && p.reducer.window < MAX64
    requires p.reducer.phase != Idle ==> TotalObserved(p.reducer.blocks) <= MAX64
    requires (p.reducer.phase != Idle) == p.expected
    ensures var r := AcceptSingles(s, Published'(p.reducer));
      && (r.Some? <==> p.reducer.phase == Idle || RowSourcesLive(s, p.reducer))
      && (r.Some? ==> Mirrors(p.(reducer := p.reducer.(phase := Idle), expected := false), r.value))
      && (r.Some? ==> r.value == s.(windows := r.value.windows))
  {
    hide AcceptSingle, Published, TotalObserved, Configurable, Expects, Closable, RowSourcesLive;
    if p.reducer.phase != Idle {
      MirrorExpects(p, s);
      hide AcceptSingles;
      PublishedWindowAccepted(s, p.reducer);
    }
  }

  lemma RequestRun(p: Plugin, s: State)
    requires Mirrors(p, s) && !p.expected
    ensures AcceptSingles(s, [REQUEST]) ==
      if BoundaryReady(s) then Some(s.(windows := s.windows.(expected := true))) else None
    ensures Mirrors(p.(expected := true), s.(windows := s.windows.(expected := true)))
  {
    OneFrame(s, REQUEST);
    hide AcceptSingle, AcceptSingles, BoundaryReady, Configurable;
    Dispatch(s, REQUEST.header, REQUEST.payload);
  }

  /** Whether the validator accepts what a step of the plugin publishes. */
  ghost predicate Accepts(s: State, e: Event, p: Plugin)
    requires |p.reducer.blocks| <= MAX_SOURCES
  {
    match e
    case Raw(frame) => WellSized(frame) ==> AcceptSingle(s, frame.header, frame.payload).Some?
    case Drain(closing) => closing || BoundaryReady(s)
    case Finish => p.reducer.phase == Idle || RowSourcesLive(s, p.reducer)
    case _ => true
  }

  lemma DrainMirrors(p: Plugin, s: State, closing: bool)
    requires Mirrors(p, s) && p.reducer.window < MAX64 && DrainStep(p, closing).Continued?
    ensures var step := DrainStep(p, closing);
      && Sized(step.frames)
      && (AcceptSingles(s, step.frames).Some? <==> closing || BoundaryReady(s))
      && (AcceptSingles(s, step.frames).Some? ==>
            var t := AcceptSingles(s, step.frames).value;
            Mirrors(step.next, t) && t == s.(windows := t.windows))
  {
    hide AcceptSingle, AcceptSingles, Published', TotalObserved, Configurable, BoundaryReady, RowSourcesLive;
    AllActive(p, s);
    PublishMirrors(p, s);
    var fs := Published'(p.reducer);
    var t := AcceptSingles(s, fs).value;
    var q := p.(reducer := p.reducer.(phase := Idle), expected := false);
    if closing {
      assert fs + [] == fs;
    } else {
      RequestRun(q, t);
      SameBoundary(s, t);
      SinglesAppend(s, fs, [REQUEST]);
    }
  }

  lemma AllActive(p: Plugin, s: State)
    requires Mirrors(p, s) && false !in p.active
    ensures p.reducer.phase != Idle ==> RowSourcesLive(s, p.reducer)
  {
    hide SourceRows, Configurable;
    forall i | 0 <= i < |p.reducer.blocks| ensures !s.sources[i].ended {
      assert p.active[i];
    }
  }

  lemma SameBoundary(s: State, t: State)
    requires t == s.(windows := t.windows)
    ensures BoundaryReady(t) == BoundaryReady(s)
  {
    hide BaselineComplete, Unsampled;
  }

  /** A capture frame, a vCPU's terminator included, keeps the mirror. */
  lemma RawMirrors(p: Plugin, s: State, frame: Frame, q: Plugin, t: State)
    requires Mirrors(p, s) && WellSized(frame) && StepPlugin(p, Raw(frame)) == Continued(q, [frame])
    requires AcceptSingle(s, frame.header, frame.payload) == Some(t)
    ensures Mirrors(q, t)
  {
    hide AcceptSingle, AcceptSource, LegalHeader, Configurable, PayloadSize, StepPlugin;
    var h, b := frame.header, frame.payload;
    RawStep(p, frame);
    SourceStep(s, h, b, t);
    SourceKeepsWindows(s, h, b, t);
    RawKeepsStream(s, h, b, t);
    RawKeepsEnded(p, s, frame, t);
  }

  lemma RawStep(p: Plugin, frame: Frame)
    requires StepPlugin(p, Raw(frame)).Continued?
    ensures var next := StepPlugin(p, Raw(frame)).next;
      WellSized(frame) && RawKind(frame.header.kind) && next == p.(active := next.active) && |next.active| == |p.active|
  {
  }

  lemma RawKeepsEnded(p: Plugin, s: State, frame: Frame, t: State)
    requires |p.active| <= MAX_SOURCES && StepPlugin(p, Raw(frame)).Continued?
    requires forall i :: 0 <= i < |p.active| && s.sources[i].ended ==> !p.active[i]
    requires LegalHeader(frame.header) && AcceptSource(s, frame.header, frame.payload) == Some(t)
    ensures var next := StepPlugin(p, Raw(frame)).next;
      forall i :: 0 <= i < |p.active| && t.sources[i].ended ==> !next.active[i]
  {
    hide AcceptSource, LegalHeader;
    forall i | 0 <= i < |p.active| && t.sources[i].ended
      ensures !StepPlugin(p, Raw(frame)).next.active[i]
    {
      SourceContinues(s, frame.header, frame.payload, t, i);
    }
  }

  lemma RawKeepsStream(s: State, h: Header, b: seq<byte>, t: State)
    requires LegalHeader(h) && |b| == PayloadSize(h) && (h.kind == RegisterSchema || Sequenced(h.kind))
    requires AcceptSource(s, h, b) == Some(t)
    ensures t.finished == s.finished && t.version == s.version && t.layoutSeen == s.layoutSeen
    ensures forall i :: 0 <= i < MAX_SOURCES ==> t.sources[i].windowRows == s.sources[i].windowRows
  {
    LegalFields(h);
    hide LegalHeader, PayloadSize, AcceptRows, Declare, BaselineComplete, NeedsBaseline;
    if Sequenced(h.kind) && AcceptRows(s, h, b).Some? {
      RowsContinue(s, h, b, AcceptRows(s, h, b).value);
    }
  }

  /** The mirror survives every step the plugin survives; the frames are accepted exactly as `Accepts` says. */
  lemma StepMirrors(p: Plugin, s: State, e: Event)
    requires Mirrors(p, s) && p.reducer.window < MAX64 && StepPlugin(p, e).Continued?
    ensures var step := StepPlugin(p, e);
      && Sized(step.frames)
      && (AcceptSingles(s, step.frames).Some? <==> Accepts(s, e, p))
      && (Accepts(s, e, p) ==> Mirrors(step.next, AcceptSingles(s, step.frames).value))
  {
    hide AcceptSingle, BoundaryReady, RowSourcesLive, TotalObserved, Configurable, DrainStep, Published';
    match e
    case Drain(closing) =>
      hide AcceptSingles;
      DrainMirrors(p, s, closing);
    case Finish =>
      hide AcceptSingles;
      PublishMirrors(p, s);
    case Raw(frame) =>
      OneFrame(s, frame);
      hide AcceptSingles, Mirrors;
      if AcceptSingle(s, frame.header, frame.payload).Some? {
        RawMirrors(p, s, frame, StepPlugin(p, e).next, AcceptSingle(s, frame.header, frame.payload).value);
      }
    case _ =>
  }

  // ---------------------------------------------------------------- whole runs

  /** Everything the plugin does on a list of events, stopping at the first failure. */
  function RunPlugin(p: Plugin, events: seq<Event>): (r: Step)
  {
    if events == [] then Continued(p, [])
    else
      match RunPlugin(p, events[..|events| - 1])
      case Failed => Failed
      case Continued(q, frames) =>
        match StepPlugin(q, events[|events| - 1])
        case Failed => Failed
        case Continued(next, more) => Continued(next, frames + more)
  }

  lemma StepSized(p: Plugin, e: Event)
    ensures var r := StepPlugin(p, e);
      r.Continued? ==> Sized(r.frames) && p.reducer.window <= r.next.reducer.window
  {
    hide Published', TotalObserved;
  }

  lemma {:induction false} RunSized(p: Plugin, events: seq<Event>)
    ensures var r := RunPlugin(p, events);
      r.Continued? ==> Sized(r.frames) && p.reducer.window <= r.next.reducer.window
  {
    hide StepPlugin;
    if events == [] {
    } else {
      RunSized(p, events[..|events| - 1]);
      if RunPlugin(p, events[..|events| - 1]).Continued? {
        StepSized(RunPlugin(p, events[..|events| - 1]).next, events[|events| - 1]);
      }
    }
  }

  /**
   * At every point of every run whose frames the validator accepted, the plugin's
   * `expected` flag, window counter and terminated vCPUs are the validator's own.
   */
  lemma {:induction false} RunMirrors(p: Plugin, s: State, events: seq<Event>)
    requires Mirrors(p, s)
    requires RunPlugin(p, events).Continued? && RunPlugin(p, events).next.reducer.window < MAX64
    ensures Sized(RunPlugin(p, events).frames)
    ensures var r := AcceptSingles(s, RunPlugin(p, events).frames);
      r.Some? ==> Mirrors(RunPlugin(p, events).next, r.value)
  {
    hide AcceptSingle, AcceptSingles, Mirrors, StepPlugin, Accepts;
    RunSized(p, events);
    if events == [] {
      NoFrames(s);
    } else {
      var front, e := events[..|events| - 1], events[|events| - 1];
      RunSized(p, front);
      var before := RunPlugin(p, front);
      StepSized(before.next, e);
      RunMirrors(p, s, front);
      SinglesAppend(s, before.frames, StepPlugin(before.next, e).frames);
      if AcceptSingles(s, RunPlugin(p, events).frames).Some? {
        StepMirrors(before.next, AcceptSingles(s, before.frames).value, e);
      }
    }
  }

  lemma NoFrames(s: State)
    ensures AcceptSingles(s, []) == Some(s)
  {
  }

  /**
   * A run is accepted one step further exactly when the step's frames are: the
   * boundary is ready at a drain, every row source is still open at exit.
   */
  lemma RunAccepted(p: Plugin, s: State, events: seq<Event>, e: Event)
    requires Mirrors(p, s)
    requires RunPlugin(p, events + [e]).Continued? && RunPlugin(p, events + [e]).next.reducer.window < MAX64
    ensures var r, whole := RunPlugin(p, events), RunPlugin(p, events + [e]);
      && r.Continued? && Sized(r.frames) && Sized(whole.frames) && |r.next.reducer.blocks| <= MAX_SOURCES
      && (AcceptSingles(s, whole.frames).Some? <==>
            AcceptSingles(s, r.frames).Some? && Accepts(AcceptSingles(s, r.frames).value, e, r.next))
  {
    hide AcceptSingle, AcceptSingles, StepPlugin, Accepts;
    assert (events + [e])[..|events|] == events;
    RunSized(p, events);
    RunSized(p, events + [e]);
    var before := RunPlugin(p, events);
    StepSized(before.next, e);
    SourcesKept(p, events);
    RunMirrors(p, s, events);
    SinglesAppend(s, before.frames, StepPlugin(before.next, e).frames);
    hide Mirrors;
    if AcceptSingles(s, before.frames).Some? {
      StepMirrors(before.next, AcceptSingles(s, before.frames).value, e);
    }
  }

  lemma {:induction false} SourcesKept(p: Plugin, events: seq<Event>)
    ensures var r := RunPlugin(p, events); r.Continued? ==> |r.next.reducer.blocks| == |p.reducer.blocks|
  {
    hide Published', TotalObserved;
    if events != [] { SourcesKept(p, events[..|events| - 1]); }
  }

  /** The plugin as configured, and a stream that has just taken a kernel Hello with action windows. */
  lemma StartMirrors(p: Plugin, h: Header)
    requires Configurable(|p.reducer.blocks|, p.reducer.capacity) && |p.reducer.blocks| == |p.active| <= MAX_SOURCES
    requires p.reducer.phase == Idle && p.reducer.window == 0 && !p.expected
    requires h.kind == Hello && LegalHeader(h) && h.version == VERSION
    requires var f := FeaturesOf(h.detail); f.kernel && f.transitionWindows
    ensures AcceptSingle(Initial(), h, []).Some? && Mirrors(p, AcceptSingle(Initial(), h, []).value)
  {
    hide Configurable, FeaturesOf;
  }

  /**
   * The drain at exit does not look at the vCPUs: a window that recorded a
   * transition is rejected as soon as its vCPU's terminator went out first.
   */
  lemma FinishAfterSourceEnd(p: Plugin, s: State, end: Frame, q: Plugin, t: State, frames: seq<Frame>)
    requires Mirrors(p, s) && p.reducer.window < MAX64 && p.reducer.phase != Idle && RowSourcesLive(s, p.reducer)
    requires FinishStep(p).Continued? && FinishStep(p).frames == frames
    requires WellSized(end) && end.header.kind == SourceEnd && end.header.source < |p.reducer.blocks|
    requires |p.reducer.blocks[end.header.source]| >= 2
    requires StepPlugin(p, Raw(end)) == Continued(q, [end]) && AcceptSingle(s, end.header, end.payload) == Some(t)
    ensures Sized(frames) && AcceptSingles(s, frames).Some? && AcceptSingles(t, frames).None?
    ensures FinishStep(q).Continued? && FinishStep(q).frames == frames
  {
    hide AcceptSingle, AcceptSingles, FinishStep, RowSourcesLive, StepPlugin, PayloadSize, Mirrors;
    RawStep(p, end);
    SameFinish(p, q);
    RawMirrors(p, s, end, q, t);
    FinishAccepted(p, s);
    FinishAccepted(q, t);
    EndsItsSource(s, end, t);
    MirrorSizes(p, s);
    TerminatedRows(t, p.reducer, end.header.source);
  }

  /** The drain at exit does not depend on which vCPUs are active. */
  lemma SameFinish(p: Plugin, q: Plugin)
    requires q == p.(active := q.active) && FinishStep(p).Continued?
    ensures FinishStep(q).Continued? && FinishStep(q).frames == FinishStep(p).frames
  {
    hide Published', TotalObserved;
  }

  lemma MirrorSizes(p: Plugin, s: State)
    requires Mirrors(p, s)
    ensures Configurable(|p.reducer.blocks|, p.reducer.capacity) && |p.reducer.blocks| <= MAX_SOURCES
  {
    hide Configurable;
  }

  lemma FinishAccepted(p: Plugin, s: State)
    requires Mirrors(p, s) && p.reducer.window < MAX64 && FinishStep(p).Continued?
    ensures AcceptSingles(s, FinishStep(p).frames).Some? <==> p.reducer.phase == Idle || RowSourcesLive(s, p.reducer)
  {
    hide AcceptSingle, AcceptSingles, Published', TotalObserved, RowSourcesLive;
    PublishMirrors(p, s);
  }

  lemma TerminatedRows(s: State, m: Model, source: nat)
    requires Configurable(|m.blocks|, m.capacity) && source < |m.blocks| <= MAX_SOURCES
    requires |m.blocks[source]| >= 2 && s.sources[source].ended
    ensures !RowSourcesLive(s, m)
  {
    hide SourceRows;
    HasRows(m, source);
  }

  lemma EndsItsSource(s: State, end: Frame, t: State)
    requires WellSized(end) && end.header.kind == SourceEnd && AcceptSingle(s, end.header, end.payload) == Some(t)
    ensures end.header.source < MAX_SOURCES && t.sources[end.header.source].ended
  {
    hide AcceptSingle, AcceptSource, LegalHeader;
    SourceStep(s, end.header, end.payload, t);
    LegalFields(end.header);
    SourceContinues(s, end.header, end.payload, t, end.header.source);
  }

  lemma HasRows(m: Model, source: nat)
    requires source < |m.blocks| && |m.blocks[source]| >= 2 && Configurable(|m.blocks|, m.capacity)
    ensures SourceRows(m, source) != []
  {
    var ps := Pairs(m.blocks[source]);
    FirstsAreFirsts(ps);
    assert ps[0] in Firsts(ps);
  }

  // ---------------------------------------------------------------- a run that is rejected at exit

  /** A kernel-interactive system capture with action windows and no other signal. */
  const HELLO: Header := Header(Hello, 0, 0, 0, 0x10_3001, VERSION)

  /** One vCPU, two slots. */
  const IDLE_PLUGIN: Plugin := Plugin(Model(2, Idle, 0, [[]]), false, [true])

  const END: Frame := Frame(Header(SourceEnd, 0, 0, 0, 0, VERSION), [])

  lemma HelloFeatures()
    ensures var f := FeaturesOf(HELLO.detail);
      f.kernel && f.system && f.transitionWindows && !f.registers && !f.stdio && !f.observationReduction &&
        !f.executableLayout
    ensures LegalHeader(HELLO)
  {
  }

  /** What the plugin does before its vCPU exits: drain, window, two blocks, end of window. */
  function WindowEvents(): seq<Event> {
    [Drain(false), Begin, Observe(0, 1), Observe(0, 2), End]
  }

  lemma WindowRun()
    ensures RunPlugin(IDLE_PLUGIN, WindowEvents()) == Continued(Plugin(Model(2, Ended, 1, [[1, 2]]), true, [true]),
                                                                [REQUEST])
  {
    hide DrainStep;
    FirstDrain();
    var p1 := IDLE_PLUGIN.(expected := true);
    var p2 := p1.(reducer := Model(2, Recording, 1, [[]]));
    var p3, p4 := p1.(reducer := Model(2, Recording, 1, [[1]])), p1.(reducer := Model(2, Recording, 1, [[1, 2]]));
    assert NoBlocks(1) == [[]];
    assert [] + [1] == [1] && [1] + [2] == [1, 2] && [[]][0 := [1]] == [[1]] && [[1]][0 := [1, 2]] == [[1, 2]];
    assert StepPlugin(p1, Begin) == Continued(p2, []);
    assert StepPlugin(p2, Observe(0, 1)) == Continued(p3, []);
    assert StepPlugin(p3, Observe(0, 2)) == Continued(p4, []);
    var p5 := p4.(reducer := Model(2, Ended, 1, [[1, 2]]));
    assert StepPlugin(p4, End) == Continued(p5, []);
    hide StepPlugin;
    PluginNext(IDLE_PLUGIN, [], IDLE_PLUGIN, [], Drain(false), p1, [REQUEST]);
    assert [] + [REQUEST] == [REQUEST] && [REQUEST] + [] == [REQUEST];
    PluginNext(IDLE_PLUGIN, [] + [Drain(false)], p1, [REQUEST], Begin, p2, []);
    PluginNext(IDLE_PLUGIN, [] + [Drain(false)] + [Begin], p2, [REQUEST], Observe(0, 1), p3, []);
    PluginNext(IDLE_PLUGIN, [] + [Drain(false)] + [Begin] + [Observe(0, 1)], p3, [REQUEST], Observe(0, 2), p4, []);
    PluginNext(IDLE_PLUGIN, [] + [Drain(false)] + [Begin] + [Observe(0, 1)] + [Observe(0, 2)], p4, [REQUEST],
               End, p5, []);
    assert [] + [Drain(false)] + [Begin] + [Observe(0, 1)] + [Observe(0, 2)] + [End] == WindowEvents();
  }

  lemma FirstDrain()
    ensures StepPlugin(IDLE_PLUGIN, Drain(false)) == Continued(IDLE_PLUGIN.(expected := true), [REQUEST])
    ensures RunPlugin(IDLE_PLUGIN, []) == Continued(IDLE_PLUGIN, [])
  {
    hide TotalObserved;
    assert [] + [REQUEST] == [REQUEST];
  }

  lemma PluginNext(p: Plugin, events: seq<Event>, q: Plugin, frames: seq<Frame>, e: Event, n: Plugin, more: seq<Frame>)
    requires RunPlugin(p, events) == Continued(q, frames) && StepPlugin(q, e) == Continued(n, more)
    ensures RunPlugin(p, events + [e]) == Continued(n, frames + more)
  {
    hide StepPlugin;
    assert (events + [e])[..|events|] == events;
  }

  lemma RequestAccepted(s: State)
    requires s == AcceptSingle(Initial(), HELLO, []).value && AcceptSingle(Initial(), HELLO, []).Some?
    requires Mirrors(IDLE_PLUGIN, s)
    ensures AcceptSingles(s, [REQUEST]) == Some(s.(windows := s.windows.(expected := true)))
  {
    HelloFeatures();
    HelloState();
    hide Mirrors, AcceptSingles, AcceptSingle, Initial, FeaturesOf;
    RequestRun(IDLE_PLUGIN, s);
  }

  lemma HelloState()
    ensures var r := AcceptSingle(Initial(), HELLO, []);
      && r.Some? && r.value.features == FeaturesOf(HELLO.detail) && r.value.started && !r.value.finished
      && r.value.version == VERSION && r.value.sources[0] == FreshSource()
  {
    HelloFeatures();
    InitialSources(0);
    NotStarted();
    hide FeaturesOf, LegalHeader, Initial, FreshSource, CompatibleFeatures;
  }

  lemma NotStarted()
    ensures !Initial().started && !Initial().finished
  {
  }

  /** The first terminator of a vCPU that sent nothing is accepted. */
  lemma EndAccepted(s: State)
    requires s.started && !s.finished && s.version == VERSION && s.features == FeaturesOf(HELLO.detail)
    requires s.sources[0] == FreshSource()
    ensures AcceptSingle(s, END.header, []).Some?
  {
    HelloFeatures();
    FreshEnds();
    EndLegal();
    hide AcceptSingle, FeaturesOf, FreshSource, LegalHeader;
    EndTaken(s, END.header);
  }

  lemma EndLegal()
    ensures LegalHeader(END.header) && WellSized(END)
  {
  }

  lemma FreshEnds()
    ensures var source := FreshSource(); !source.ended && !source.data && source.next == 0
  {
  }

  /** A terminator of a source that sent nothing needs no baseline. */
  lemma EndTaken(s: State, h: Header)
    requires Running(s, h) && LegalHeader(h) && h.kind == SourceEnd && h.count == 0
    requires !s.features.stdio && !s.features.observationReduction && !s.features.registers
    requires !s.sources[h.source].ended && s.sources[h.source].next == h.sequence
    ensures AcceptSingle(s, h, []).Some?
  {
    hide AcceptSingle, LegalHeader, BaselineComplete;
    LegalSequence(h);
    Dispatch(s, h, []);
    hide AcceptSource;
    EndDecided(s, h);
  }

  lemma EndDecided(s: State, h: Header)
    requires LegalHeader(h) && h.kind == SourceEnd && h.count == 0 && h.sequence <= MAX64
    requires !s.features.stdio && !s.features.observationReduction && !s.features.registers
    requires !s.sources[h.source].ended && s.sources[h.source].next == h.sequence
    ensures AcceptSource(s, h, []).Some?
  {
    hide LegalHeader, BaselineComplete;
  }

  lemma LegalSequence(h: Header)
    requires LegalHeader(h)
    ensures h.sequence <= MAX64 && h.source < MAX_SOURCES
  {
  }

  /**
   * A concrete run: Hello, the first drain, a window of two blocks, the vCPU's exit,
   * then the drain at exit. Every frame up to the terminator is accepted, and the
   * exit drain, which the plugin completes without an error, is rejected.
   */
  lemma LateWindowRejected() returns (before: seq<Frame>, finish: Step)
    ensures var r := RunPlugin(IDLE_PLUGIN, WindowEvents() + [Raw(END)]);
      r.Continued? && before == r.frames && finish == FinishStep(r.next) && finish.Continued?
    ensures AcceptSingle(Initial(), HELLO, []).Some? && Sized(before)
    ensures var s := AcceptSingle(Initial(), HELLO, []).value;
      && AcceptSingles(s, before).Some?
      && AcceptSingles(AcceptSingles(s, before).value, finish.frames).None?
  {
    HelloFeatures();
    HelloState();
    StartMirrors(IDLE_PLUGIN, HELLO);
    hide AcceptSingle, AcceptSingles, Initial, FeaturesOf, LegalHeader, Mirrors, FreshSource, RunPlugin, FinishStep;
    var s := AcceptSingle(Initial(), HELLO, []).value;
    RequestAccepted(s);
    var u := s.(windows := s.windows.(expected := true));
    WindowMirrors(s, u);
    EndAccepted(u);
    hide StepPlugin, WindowEvents, LegalHeader;
    var t := AcceptSingle(u, END.header, []).value;
    var q := ExitStep();
    RawThenFinish(Plugin(Model(2, Ended, 1, [[1, 2]]), true, [true]), u, q, t);
    before, finish := [REQUEST] + [END], FinishStep(q);
    RequestThenEnd(s, u, t);
  }

  lemma RequestThenEnd(s: State, u: State, t: State)
    requires AcceptSingles(s, [REQUEST]) == Some(u) && AcceptSingle(u, END.header, []) == Some(t)
    ensures Sized([REQUEST] + [END]) && AcceptSingles(s, [REQUEST] + [END]) == Some(t)
  {
    hide AcceptSingle, AcceptSingles;
    SinglesAppend(s, [REQUEST], [END]);
    OneFrame(u, END);
  }

  lemma WindowMirrors(s: State, u: State)
    requires Mirrors(IDLE_PLUGIN, s) && AcceptSingles(s, [REQUEST]) == Some(u)
    ensures Mirrors(Plugin(Model(2, Ended, 1, [[1, 2]]), true, [true]), u)
  {
    hide AcceptSingles, Mirrors, RunPlugin;
    WindowRun();
    RunMirrors(IDLE_PLUGIN, s, WindowEvents());
  }

  lemma ExitStep() returns (q: Plugin)
    ensures q == Plugin(Model(2, Ended, 1, [[1, 2]]), true, [false])
    ensures StepPlugin(Plugin(Model(2, Ended, 1, [[1, 2]]), true, [true]), Raw(END)) == Continued(q, [END])
    ensures RunPlugin(IDLE_PLUGIN, WindowEvents() + [Raw(END)]) == Continued(q, [REQUEST] + [END])
  {
    var p := Plugin(Model(2, Ended, 1, [[1, 2]]), true, [true]);
    q := p.(active := [false]);
    assert [true][0 := false] == [false];
    assert StepPlugin(p, Raw(END)) == Continued(q, [END]);
    hide StepPlugin;
    WindowRun();
    var events := WindowEvents();
    assert (events + [Raw(END)])[..|events|] == events;
  }

  lemma RawThenFinish(p: Plugin, u: State, q: Plugin, t: State)
    requires p == Plugin(Model(2, Ended, 1, [[1, 2]]), true, [true]) && Mirrors(p, u)
    requires StepPlugin(p, Raw(END)) == Continued(q, [END]) && AcceptSingle(u, END.header, []) == Some(t)
    requires u.sources[0] == FreshSource()
    ensures FinishStep(q).Continued? && AcceptSingles(t, FinishStep(q).frames).None?
  {
    OneSourceTotal();
    FreshEnds();
    assert FinishStep(p).Continued?;
    hide AcceptSingle, AcceptSingles, TotalObserved, FinishStep, SourceRows, StepPlugin, Mirrors, FreshSource;
    assert RowSourcesLive(u, p.reducer);
    FinishAfterSourceEnd(p, u, END, q, t, FinishStep(p).frames);
  }

  lemma OneSourceTotal()
    ensures TotalObserved([[1, 2]]) == 1
  {
    assert [[1, 2]][..0] == [];
    assert Pairs([1, 2]) == [Pair(1, 2)] by { PairsStep([1], 2); }
  }
}
