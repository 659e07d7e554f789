/**
Raw capture from Hello to Complete: with block rows every run is accepted whose
register names are printable and whose input requests come after recording starts.
Runs that break each of these conditions, and one without block rows, are refused.
*/
module RawTraces {
  import opened Words
  import opened Wire
  import opened Validator
  import opened ValidatorRuns
  import opened RowBatches
  import opened Contexts
  import opened RowAcceptance
  import opened CaptureRows
  import opened RowStreams
  import opened RegisterSchemas
  import opened RawCapture
  import opened ContextCrowding

  /** The stream right after Hello. */
  function Greeted(h: Header): State {
    Initial().(started := true, version := h.version, features := FeaturesOf(h.detail))
  }

  lemma HelloGreets(h: Header)
    requires h.kind == Hello && LegalHeader(h)
    ensures WellSized(Frame(h, [])) && Accept(Initial(), Frame(h, [])) == Some(Greeted(h))
  {
    hide LegalHeader, FeaturesOf;
  }

  /** No vCPU has started and the stream has taken Hello. */
  lemma StartTracks(h: Header, r: Raw)
    requires h.kind == Hello && LegalHeader(h) && h.version == VERSION && r.config.features == FeaturesOf(h.detail)
    requires ConfigOk(r.config, |r.vcpus|) && !r.laid
    requires forall i :: 0 <= i < |r.vcpus| ==> r.vcpus[i] == FRESH
    ensures Tracks(Greeted(h), r)
  {
    hide LegalHeader, FeaturesOf;
    var s := Greeted(h);
    forall i | 0 <= i < MAX_SOURCES ensures Silent(s.sources[i]) { InitialSources(i); }
    hide Greeted, Silent;
    forall i | 0 <= i < |r.vcpus| ensures CpuTracks(r.config, s, i, r.vcpus[i]) { assert r.vcpus[i] == FRESH; }
    NotSeen(s);
    GreetedLive(h);
  }

  lemma GreetedLive(h: Header)
    ensures var s := Greeted(h);
      && s.started && !s.finished && s.version == h.version && s.features == FeaturesOf(h.detail)
      && !s.layoutSeen && !s.sourceDataSeen
  {
    hide FeaturesOf;
  }

  lemma NotSeen(s: State)
    requires forall i :: 0 <= i < MAX_SOURCES ==> Silent(s.sources[i])
    ensures forall i :: 0 <= i < MAX_SOURCES ==> !s.sources[i].seen
  {
    forall i | 0 <= i < MAX_SOURCES ensures !s.sources[i].seen { assert Silent(s.sources[i]); }
  }

  /** Fresh vCPUs have nothing buffered. */
  lemma StartCalm(r: Raw)
    requires r.wire == [] && forall i :: 0 <= i < |r.vcpus| ==> r.vcpus[i] == FRESH
    ensures AllCalm(r)
  {
    NoCounts();
    hide NoTwins;
  }

  const COMPLETE: Frame := Frame(Header(Complete, 0, 0, 0, 0, VERSION), [])

  /** No window, reduction or filter summary is outstanding. */
  predicate Plain(s: State) {
    !s.features.transitionWindows && !s.features.observationReduction && s.windows.sources == 0 &&
    (s.features.contextFilter ==> s.filterSeen)
  }

  /** Every started vCPU has ended, and the code span is out where it is on. */
  predicate Done(r: Raw) {
    (forall i :: 0 <= i < |r.vcpus| ==> r.vcpus[i].life != Active) &&
    (r.config.features.executableLayout ==> r.laid)
  }

  /** Once every started vCPU has ended, Complete is accepted. */
  lemma CompletesWhenEnded(s: State, r: Raw)
    requires Tracks(s, r) && Plain(s) && Done(r)
    ensures WellSized(COMPLETE) && Accept(s, COMPLETE) == Some(s.(finished := true))
  {
    hide AcceptSingle, Buffered, Linked, Settled;
    AllEnded(s, r);
    hide Tracks;
    Dispatch(s, COMPLETE.header, []);
  }

  lemma AllEnded(s: State, r: Raw)
    requires Tracks(s, r) && Done(r)
    ensures AllSeenEnded(s) && s.started && Running(s, COMPLETE.header)
  {
    hide Link;
    forall i | 0 <= i < |s.sources| && s.sources[i].seen ensures s.sources[i].ended {
      if i < |r.vcpus| { assert CpuTracks(r.config, s, i, r.vcpus[i]); }
    }
  }

  /**
   * From any stream and capture that agree: with block rows everything that follows
   * is accepted, Complete included, exactly when the callbacks are fine.
   */
  lemma BlocksAccepted(s: State, r: Raw, events: seq<Event>, q: Raw)
    requires Tracks(s, r) && AllCalm(r) && r.config.blocks && RunEvents(r, events) == Some(q)
    requires !s.features.contextFilter
    ensures r.wire <= q.wire
    ensures var t := Takes(s, Frames(Since(r, q)));
      && (t.Some? <==> AllFine(events))
      && (t.Some? ==> Tracks(t.value, q) && (Plain(s) && Done(q) ==> Accept(t.value, COMPLETE).Some?))
  {
    hide Tracks, RunEvents, Accept, AllCalm, Done, AllFine;
    BlocksKeepApart(r, events, q);
    RunAccepted(s, r, events, q);
    ApartSince(r, q);
    var t := Takes(s, Frames(Since(r, q)));
    if t.Some? && Plain(s) && Done(q) { CompletesWhenEnded(t.value, q); }
  }

  /**
   * The whole capture with block rows and without filter or windows: whatever the
   * vCPUs do, with or without registers, every frame from Hello to Complete is
   * accepted exactly when register names are printable and input is requested only
   * while recording.
   */
  lemma RawCaptureAccepted(h: Header, r: Raw, events: seq<Event>, q: Raw)
    requires h.kind == Hello && LegalHeader(h) && h.version == VERSION && r.config.features == FeaturesOf(h.detail)
    requires ConfigOk(r.config, |r.vcpus|) && r.config.blocks && r.wire == [] && !r.laid
    requires !r.config.features.contextFilter && !r.config.features.transitionWindows
    requires forall i :: 0 <= i < |r.vcpus| ==> r.vcpus[i] == FRESH
    requires RunEvents(r, events) == Some(q)
    ensures Accept(Initial(), Frame(h, [])) == Some(Greeted(h))
    ensures var t := Takes(Greeted(h), Frames(q.wire));
      && (t.Some? <==> AllFine(events))
      && (t.Some? ==> Tracks(t.value, q) && (Done(q) ==> Accept(t.value, COMPLETE).Some?))
  {
    HelloGreets(h);
    StartTracks(h, r);
    GreetedPlain(h);
    hide LegalHeader, FeaturesOf, Greeted, Tracks, RunEvents, Accept, ConfigOk, AllFine, Done;
    StartCalm(r);
    BlocksAccepted(Greeted(h), r, events, q);
    assert Since(r, q) == q.wire;
  }

  lemma GreetedPlain(h: Header)
    ensures Greeted(h).windows.sources == 0 && Greeted(h).features == FeaturesOf(h.detail) && Greeted(h).filterRows == 0
    ensures !Greeted(h).filterSeen
  {
    hide FeaturesOf;
  }

  // ---------------------------------------------------------------- without block rows

  /** Interactive system capture with action windows and contexts; block rows, registers and memory off. */
  const WINDOW_HELLO: Header := Header(Hello, 0, 0, 0, 0x11_3002, VERSION)

  function WindowConfig(): Config { Config(FeaturesOf(WINDOW_HELLO.detail), false, 15) }

  lemma WindowFeatures()
    ensures var f := FeaturesOf(WINDOW_HELLO.detail);
      && f.kernel && f.system && f.transitionWindows && f.addressContext && !f.memory && !f.registers && !f.mixed
      && !f.stdio && !f.contextFilter && !f.observationReduction && !f.executableLayout && !f.systemMemory
    ensures LegalHeader(WINDOW_HELLO)
  {
  }

  const FIRST: Context := Context(0, 0, 0, 0, 0, 0)
  const SECOND: Context := Context(0, 4096, 0, 0, 0, 0)

  /** A vCPU starts, enters two blocks with different contexts, and is drained. */
  function TwoContexts(): seq<Event> {
    [Event(0, Start([])), Event(0, Enter(1, FIRST, [], true)), Event(0, Enter(2, SECOND, [], true)), Event(0, Flush)]
  }

  /** The first row opens a buffer of its kind, the second joins it. */
  lemma RowsJoin(f: Features, x: Item, y: Item)
    requires !f.mixed && x.kind == y.kind == AddressContext && |x.data| == |y.data| == CONTEXT_BYTES
    ensures Joining(Batch(Blocks, 0, []), f.mixed, x) == Batch(AddressContext, 1, [x])
    ensures MadeRoom(f, 0, Batch(Blocks, 0, []), x) == []
    ensures Joining(Batch(AddressContext, 1, [x]), f.mixed, y) == Batch(AddressContext, 2, [x, y])
    ensures MadeRoom(f, 0, Batch(AddressContext, 1, [x]), y) == []
  {
    OneJoined(x);
    assert [] + [x] == [x] && [x] + [y] == [x, y];
    hide BatchFrame;
  }

  lemma ContextSized(pc: u64, context: Context)
    ensures ContextRow(pc, context, 15).kind == AddressContext && |ContextRow(pc, context, 15).data| == CONTEXT_BYTES
  {
    hide Bytes;
  }

  /** Entering a block with a new context appends that context and nothing else. */
  lemma ContextStep(c: Config, v: Vcpu, pc: u64, context: Context, batch: Batch)
    requires c == WindowConfig() && v.life == Active && v.widths == [] && v.previous == [] && v.context != Some(context)
    requires v.batch.next < MAX64 && ValidMode(15, context)
    requires var x := ContextRow(pc, context, 15);
      batch == Joining(v.batch, c.features.mixed, x) && MadeRoom(c.features, 0, v.batch, x) == []
    ensures var o := Out(v.(batch := batch, context := Some(context), contextSequence := v.batch.next,
                            recorded := true), []);
      Legal(c, v, Enter(pc, context, [], true)) && ActStep(c, 0, v, Enter(pc, context, [], true)) == Some(o)
  {
    WindowFeatures();
    hide FeaturesOf, MadeRoom, Joining, ContextRow, ValidMode;
    var none: seq<Sent> := [];
    assert none + none == none;
  }

  lemma OneStep(r: Raw, v: Vcpu, act: Act, o: Out)
    requires r.vcpus == [v] && Legal(r.config, v, act) && ActStep(r.config, 0, v, act) == Some(o)
    requires !r.config.features.executableLayout && !act.Translate?
    ensures Step(r, Event(0, act)) == Some(r.(vcpus := [o.v], wire := r.wire + o.sent))
  {
    hide ActStep, Legal;
    assert [v][0 := o.v] == [o.v] && r.wire + o.sent + [] == r.wire + o.sent;
  }

  lemma RunOne(r: Raw, events: seq<Event>, m: Raw, e: Event, q: Raw)
    requires RunEvents(r, events) == Some(m) && Step(m, e) == Some(q)
    ensures RunEvents(r, events + [e]) == Some(q)
  {
    hide Step;
    assert (events + [e])[..|events|] == events;
  }

  lemma EnterRuns(r: Raw, events: seq<Event>, m: Raw, v: Vcpu, pc: u64, context: Context, w: Vcpu)
    requires RunEvents(r, events) == Some(m) && m.config == WindowConfig() && m.vcpus == [v]
    requires v.life == Active && v.widths == [] && v.previous == [] && v.context != Some(context)
    requires v.batch.next < MAX64 && ValidMode(15, context)
    requires var x := ContextRow(pc, context, 15);
      && MadeRoom(m.config.features, 0, v.batch, x) == []
      && w == v.(batch := Joining(v.batch, m.config.features.mixed, x), context := Some(context),
                 contextSequence := v.batch.next, recorded := true)
    ensures RunEvents(r, events + [Event(0, Enter(pc, context, [], true))]) == Some(m.(vcpus := [w]))
  {
    WindowFeatures();
    ConfigFeatures();
    hide FeaturesOf, ContextRow, Joining, MadeRoom, RunEvents, WindowConfig, ValidMode;
    var act, o := Enter(pc, context, [], true), Out(w, []);
    ContextStep(m.config, v, pc, context, w.batch);
    OneStep(m, v, act, o);
    assert m.wire + [] == m.wire;
    hide Step;
    RunOne(r, events, m, Event(0, act), m.(vcpus := [w]));
  }

  lemma StartRuns(r: Raw)
    requires r.config == WindowConfig() && r.vcpus == [FRESH]
    ensures RunEvents(r, [Event(0, Start([]))]) == Some(r.(vcpus := [FRESH.(life := Active)]))
  {
    WindowFeatures();
    ConfigFeatures();
    hide FeaturesOf, WindowConfig;
    StartsPlain(r.config);
    OneStep(r, FRESH, Start([]), Out(FRESH.(life := Active), []));
    assert r.wire + [] == r.wire;
    hide Step;
    Nothing(r);
    RunOne(r, [], r, Event(0, Start([])), r.(vcpus := [FRESH.(life := Active)]));
    assert [] + [Event(0, Start([]))] == [Event(0, Start([]))];
  }

  lemma FlushRuns(r: Raw, events: seq<Event>, m: Raw, v: Vcpu) returns (q: Raw)
    requires RunEvents(r, events) == Some(m) && m.config == WindowConfig() && m.vcpus == [v] && m.wire == []
    requires v.life == Active && v.batch.next == 2 && |v.batch.items| == 2
    ensures RunEvents(r, events + [Event(0, Flush)]) == Some(q) && |q.wire| == 1 && q.wire[0].rows == v.batch.items
  {
    WindowFeatures();
    ConfigFeatures();
    hide FeaturesOf, WindowConfig, RunEvents;
    var o := FlushOut(0, Out(v, []));
    FlushTwo(m.config, v, o);
    OneStep(m, v, Flush, o);
    q := m.(vcpus := [o.v], wire := [] + o.sent);
    hide Step, FlushOut;
    RunOne(r, events, m, Event(0, Flush), q);
  }

  lemma FourEvents()
    ensures [Event(0, Start([]))] + [Event(0, Enter(1, FIRST, [], true))] + [Event(0, Enter(2, SECOND, [], true))] +
              [Event(0, Flush)] == TwoContexts()
  {
  }

  /** The run and the one frame it sends: two contexts, nothing between them. */
  lemma TwinRun() returns (r: Raw, q: Raw)
    ensures r == Raw(WindowConfig(), [FRESH], [], false) && RunEvents(r, TwoContexts()) == Some(q)
    ensures |q.wire| == 1 && q.wire[0].rows == [ContextRow(1, FIRST, 15), ContextRow(2, SECOND, 15)]
  {
    var c, x, y := WindowConfig(), ContextRow(1, FIRST, 15), ContextRow(2, SECOND, 15);
    r := Raw(c, [FRESH], [], false);
    WindowFeatures();
    ConfigFeatures();
    ContextSized(1, FIRST);
    ContextSized(2, SECOND);
    FourEvents();
    hide FeaturesOf, ContextRow, WindowConfig, RunEvents, Joining, MadeRoom, TwoContexts;
    RowsJoin(c.features, x, y);
    var a := FRESH.(life := Active);
    var b := a.(batch := Batch(AddressContext, 1, [x]), context := Some(FIRST), contextSequence := 0, recorded := true);
    var d := b.(batch := Batch(AddressContext, 2, [x, y]), context := Some(SECOND), contextSequence := 1);
    StartRuns(r);
    EnterRuns(r, [Event(0, Start([]))], r.(vcpus := [a]), a, 1, FIRST, b);
    EnterRuns(r, [Event(0, Start([]))] + [Event(0, Enter(1, FIRST, [], true))], r.(vcpus := [b]), b, 2, SECOND, d);
    q := FlushRuns(r, [Event(0, Start([]))] + [Event(0, Enter(1, FIRST, [], true))] +
                      [Event(0, Enter(2, SECOND, [], true))], r.(vcpus := [d]), d);
  }

  lemma ConfigFeatures()
    ensures WindowConfig().features == FeaturesOf(WINDOW_HELLO.detail)
  {
    hide FeaturesOf;
  }

  lemma StartsPlain(c: Config)
    requires !c.features.registers
    ensures Legal(c, FRESH, Start([])) && ActStep(c, 0, FRESH, Start([])) == Some(Out(FRESH.(life := Active), []))
  {
    NoSchema(c, 0);
  }

  lemma FlushTwo(c: Config, d: Vcpu, o: Out)
    requires d.life == Active && d.batch.next == 2 && |d.batch.items| == 2 && o == FlushOut(0, Out(d, []))
    ensures Legal(c, d, Flush) && ActStep(c, 0, d, Flush) == Some(o)
    ensures |o.sent| == 1 && o.sent[0].rows == d.batch.items
  {
    hide BatchFrame;
  }

  lemma Nothing(r: Raw)
    ensures RunEvents(r, []) == Some(r)
  {
  }

  /**
   * Without block rows the property fails: in this configuration, which the plugin
   * accepts, two blocks whose context changed share a frame that the stream refuses.
   */
  lemma TwinsRejected() returns (r: Raw, q: Raw)
    ensures !r.config.blocks && RunEvents(r, TwoContexts()) == Some(q) && r.wire == []
    ensures Accept(Initial(), Frame(WINDOW_HELLO, [])) == Some(Greeted(WINDOW_HELLO))
    ensures Tracks(Greeted(WINDOW_HELLO), r)
    ensures Takes(Greeted(WINDOW_HELLO), Frames(q.wire)) == None
  {
    WindowFeatures();
    HelloGreets(WINDOW_HELLO);
    ConfigFeatures();
    r, q := TwinRun();
    WindowConfigOk();
    StartTracks(WINDOW_HELLO, r);
    ContextSized(1, FIRST);
    ContextSized(2, SECOND);
    hide FeaturesOf, Greeted, Tracks, RunEvents, Accept, ContextRow, LegalHeader;
    RunAccepted(Greeted(WINDOW_HELLO), r, TwoContexts(), q);
    assert Since(r, q) == q.wire;
    assert TwinAt(q.wire[0].rows, 1);
  }

  lemma WindowConfigOk()
    ensures ConfigOk(WindowConfig(), 1) && !WindowConfig().blocks
  {
    WindowFeatures();
    hide FeaturesOf;
  }

  // ---------------------------------------------------------------- names and input requests

  /** An x86 process with all registers. */
  const REGISTER_HELLO: Header := Header(Hello, 0, 0, 0, 0x202, VERSION)

  /** An interactive x86 process whose capture waits for a start block. */
  const WAITING_HELLO: Header := Header(Hello, 0, 0, 0, 0x4A02, VERSION)

  const PROGRAM_COUNTER: Declared := Declared([114, 105, 112], 8)
  const SPACED: Declared := Declared([97, 32, 98], 8)

  lemma ProcessFeatures()
    ensures LegalHeader(REGISTER_HELLO) && LegalHeader(WAITING_HELLO)
    ensures var f := FeaturesOf(REGISTER_HELLO.detail);
      && f.registers && !f.system && !f.stdio && !f.contextFilter && !f.observationReduction && !f.systemMemory
      && !f.transitionWindows
    ensures var f := FeaturesOf(WAITING_HELLO.detail);
      && f.registers && f.stdio && f.window && !f.system && !f.contextFilter && !f.observationReduction
      && !f.systemMemory && !f.addressContext && !f.executableLayout && !f.transitionWindows
  {
  }

  function ProcessOf(h: Header): Raw { Raw(Config(FeaturesOf(h.detail), true, 0), [FRESH], [], false) }

  lemma ProcessTracks(h: Header)
    requires h == REGISTER_HELLO || h == WAITING_HELLO
    ensures Accept(Initial(), Frame(h, [])) == Some(Greeted(h)) && Tracks(Greeted(h), ProcessOf(h))
  {
    ProcessFeatures();
    hide FeaturesOf, LegalHeader, Greeted, Accept;
    HelloGreets(h);
    StartTracks(h, ProcessOf(h));
  }

  lemma Names()
    ensures Admissible([PROGRAM_COUNTER, SPACED]) && Admissible([PROGRAM_COUNTER])
    ensures !AllPrintable([PROGRAM_COUNTER, SPACED])
  {
    assert !Printable(SPACED) by { assert SPACED.name[1] == 32; }
    assert [PROGRAM_COUNTER, SPACED][1] == SPACED;
    assert PROGRAM_COUNTER.name[0] != SPACED.name[0];
  }

  /** A vCPU that starts with registers. */
  lemma Declaring(r: Raw, ds: seq<Declared>) returns (q: Raw)
    requires r.vcpus == [FRESH] && r.config.features.registers && Admissible(ds) && ds != []
    ensures Step(r, Event(0, Start(ds))) == Some(q) && q.config == r.config && !q.laid == !r.laid && |q.vcpus| == 1
    ensures var v := q.vcpus[0];
      v.life == Active && !v.recorded && |v.widths| == |ds| && forall i :: 0 <= i < |ds| ==> v.widths[i] == ds[i].width
  {
    hide PutSchemas, Drained, Admissible;
    q := Step(r, Event(0, Start(ds))).value;
  }

  /** A name with a space passes the plugin's checks, and the stream refuses the schema. */
  lemma SpacedNameRejected() returns (events: seq<Event>, q: Raw)
    ensures events == [Event(0, Start([PROGRAM_COUNTER, SPACED]))]
    ensures RunEvents(ProcessOf(REGISTER_HELLO), events) == Some(q)
    ensures Accept(Initial(), Frame(REGISTER_HELLO, [])) == Some(Greeted(REGISTER_HELLO))
    ensures Takes(Greeted(REGISTER_HELLO), Frames(q.wire)) == None
  {
    var r, e := ProcessOf(REGISTER_HELLO), Event(0, Start([PROGRAM_COUNTER, SPACED]));
    ProcessFeatures();
    ProcessTracks(REGISTER_HELLO);
    Names();
    hide FeaturesOf, LegalHeader, Greeted, Accept, Tracks, Admissible, AllPrintable;
    q := Declaring(r, [PROGRAM_COUNTER, SPACED]);
    hide Step;
    Nothing(r);
    RunOne(r, [], r, e, q);
    events := [] + [e];
    RunAccepted(Greeted(REGISTER_HELLO), r, events, q);
    assert events[0] == e && !Fine(e.act);
    assert Since(r, q) == q.wire;
  }

  /** A process that reads its input before the start block: nothing is sampled yet, and the request is refused. */
  lemma EarlyInputRejected() returns (events: seq<Event>, q: Raw)
    ensures |events| == 2 && events[0] == Event(0, Start([PROGRAM_COUNTER])) && events[1].act.Ask?
    ensures RunEvents(ProcessOf(WAITING_HELLO), events) == Some(q)
    ensures Accept(Initial(), Frame(WAITING_HELLO, [])) == Some(Greeted(WAITING_HELLO))
    ensures Takes(Greeted(WAITING_HELLO), Frames(q.wire)) == None
  {
    var r, e := ProcessOf(WAITING_HELLO), Event(0, Start([PROGRAM_COUNTER]));
    var value: seq<byte> := seq(8, _ => 0);
    var ask := Ask(false, 0, [value], 1);
    ProcessFeatures();
    ProcessTracks(WAITING_HELLO);
    Names();
    hide FeaturesOf, LegalHeader, Greeted, Accept, Tracks, Admissible, AllPrintable;
    var m := Declaring(r, [PROGRAM_COUNTER]);
    var v := m.vcpus[0];
    assert m.vcpus == [v];
    AskingEarly(m.config, v, value, ask);
    var o := ActStep(m.config, 0, v, ask).value;
    OneStep(m, v, ask, o);
    q := m.(vcpus := [o.v], wire := m.wire + o.sent);
    hide Step, ActStep;
    Nothing(r);
    RunOne(r, [], r, e, m);
    RunOne(r, [] + [e], m, Event(0, ask), q);
    events := [] + [e] + [Event(0, ask)];
    RunAccepted(Greeted(WAITING_HELLO), r, events, q);
    assert events[1].act == ask && !Fine(ask);
    assert Since(r, q) == q.wire;
  }

  lemma AskingEarly(c: Config, v: Vcpu, value: seq<byte>, ask: Act)
    requires c.features.stdio && c.features.window && !c.features.addressContext
    requires v.life == Active && !v.recorded && |v.widths| == 1 && v.widths[0] == |value| == 8
    requires ask == Ask(false, 0, [value], 1)
    ensures Legal(c, v, ask) && ActStep(c, 0, v, ask).Some?
  {
    hide Drained, AskFrame;
  }
}
