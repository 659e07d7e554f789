/**
The kernel worker's protocol: its event handlers, and the system they run in -
QEMU started paused with its QMP queue, a guest that speaks only while it runs,
and the plugin that answers each drain command with one seal. Every interleaving
of these keeps the stop / drain / act / continue order.
*/
module KernelProtocol {
  import opened Words

  datatype Command = NoCommand | Capabilities | Resume | Stop

  /** The worker's flags. */
  datatype Worker = Worker(
    interactive: bool, hello: bool, greeting: bool, requested: bool, draining: bool, seal: bool,
    guestStarted: bool, guestComplete: bool, pending: nat, nextId: nat, command: Command)

  /** What the worker reads from QMP, from the guest's serial line and from the trace pipe. */
  datatype Message = Greeting | Answer(id: nat, ok: bool) | Notice
  datatype GuestEvent =
    GuestStart(interactive: bool) | GuestReady | GuestComplete(ok: bool) | GuestResult | GuestUnknown
  datatype TraceFrame = TraceHello(system: bool, kernel: bool) | TraceData | TraceRequest | TraceComplete | TraceError

  /** What the worker does, and the guest and plugin inputs its order is about. */
  datatype Entry =
    | Capable | Continue | Ready | Pause | Paused | Drain | Sealed | Act | Done

  /** A command put on the QMP socket. */
  datatype Sent = Sent(id: nat, command: Command)

  datatype Reaction = Fails | Reacts(next: Worker, sent: seq<Sent>, drains: nat, log: seq<Entry>)

  const NEW: Worker := Worker(true, false, false, false, false, false, false, false, 0, 1, NoCommand)

  /** Puts a command on the socket and waits for its answer. */
  function Ask(w: Worker, command: Command): Worker {
    w.(pending := w.nextId, nextId := w.nextId + 1, command := command)
  }

  function OnTrace(w: Worker, f: TraceFrame): Reaction {
    if w.seal || w.hello == f.TraceHello? || (!w.hello && !(f.system && f.kernel == w.interactive)) then Fails
    else
      var v := w.(hello := true);
      match f
      case TraceComplete => Reacts(v.(seal := true), [], 0, [])
      case TraceError => Fails
      case TraceRequest =>
        if !w.interactive || !w.draining then Fails
        else Reacts(Ask(v.(draining := false, requested := false), Resume), [Sent(w.nextId, Resume)], 0,
                    [Sealed, Act, Continue])
      case _ => Reacts(v, [], 0, [])
  }

  function OnQmp(w: Worker, m: Message): Reaction {
    match m
    case Notice => Reacts(w, [], 0, [])
    case Greeting =>
      if w.greeting then Fails
      else Reacts(Ask(w.(greeting := true), Capabilities), [Sent(w.nextId, Capabilities)], 0, [Capable])
    case Answer(id, ok) =>
      if id != w.pending || w.pending == 0 || !ok then Fails
      else
        var v := w.(command := NoCommand, pending := 0);
        match w.command
        case Capabilities => Reacts(Ask(v, Resume), [Sent(w.nextId, Resume)], 0, [Continue])
        case Stop => Reacts(v.(draining := true), [], 1, [Paused, Drain])
        case _ => Reacts(v, [], 0, [])
  }

  function OnGuest(w: Worker, e: GuestEvent): Reaction {
    if !w.hello then Fails
    else
      match e
      case GuestStart(interactive) =>
        if w.guestStarted || interactive != w.interactive then Fails else Reacts(w.(guestStarted := true), [], 0, [])
      case GuestReady =>
        if !w.interactive || !w.guestStarted || w.requested || w.guestComplete then Fails
        else Reacts(w.(requested := true), [], 0, [Ready])
      case GuestComplete(ok) =>
        if !w.guestStarted || w.guestComplete || w.requested || w.draining || !ok then Fails
        else Reacts(w.(guestComplete := true), [], 0, [Done])
      case GuestResult => if !w.guestStarted || w.guestComplete then Fails else Reacts(w, [], 0, [])
      case GuestUnknown => Fails
  }

  /** The end of every loop iteration: a request stops the machine once nothing is in flight. */
  function OnIdle(w: Worker): Reaction {
    if w.interactive && w.requested && w.pending == 0 && !w.draining
    then Reacts(Ask(w, Stop), [Sent(w.nextId, Stop)], 0, [Pause])
    else Reacts(w, [], 0, [])
  }

  // ---------------------------------------------------------------- the order of a run

  /** Where a log stands in Capable Continue (Ready Pause Paused Drain Sealed Act Continue)* [Done]. */
  datatype Phase = Begin | Negotiating | Free | Asked | Pausing | Halted | Draining | Closed | Acted | Finished

  function Next(p: Phase, e: Entry): Option<Phase> {
    match (p, e)
    case (Begin, Capable) => Some(Negotiating)
    case (Negotiating, Continue) => Some(Free)
    case (Free, Ready) => Some(Asked)
    case (Asked, Pause) => Some(Pausing)
    case (Pausing, Paused) => Some(Halted)
    case (Halted, Drain) => Some(Draining)
    case (Draining, Sealed) => Some(Closed)
    case (Closed, Act) => Some(Acted)
    case (Acted, Continue) => Some(Free)
    case (Free, Done) => Some(Finished)
    case _ => None
  }

  function PhaseOf(log: seq<Entry>): Option<Phase> {
    if log == [] then Some(Begin)
    else
      match PhaseOf(log[..|log| - 1])
      case None => None
      case Some(p) => Next(p, log[|log| - 1])
  }

  // ---------------------------------------------------------------- the system

  /**
   * QEMU executes queued commands in order and answers each; the guest can speak
   * only while it runs; the plugin sends one seal per drain command.
   */
  datatype System = System(
    worker: Worker, greeted: bool, running: bool, queue: seq<Sent>, replies: seq<Message>,
    serial: seq<GuestEvent>, trace: seq<TraceFrame>, drains: nat, log: seq<Entry>)

  datatype Event =
    | QmpGreets | QmpExecutes | QmpNotices
    | GuestSays(event: GuestEvent)
    | PluginSends(frame: TraceFrame) | PluginSeals
    | ReadTrace | ReadQmp | ReadGuest | Idle

  function PoweredOn(interactive: bool): System {
    System(NEW.(interactive := interactive), false, false, [], [], [], [], 0, [])
  }

  /** The worker's reaction takes effect; a failing worker ends the run. */
  function React(s: System, r: Reaction): Option<System> {
    match r
    case Fails => None
    case Reacts(w, sent, drains, log) =>
      Some(s.(worker := w, queue := s.queue + sent, drains := s.drains + drains, log := s.log + log))
  }

  function Step(s: System, e: Event): Option<System> {
    match e
    case QmpGreets => if s.greeted then None else Some(s.(greeted := true, replies := s.replies + [Greeting]))
    case QmpNotices => if !s.greeted then None else Some(s.(replies := s.replies + [Notice]))
    case QmpExecutes =>
      if !s.greeted || s.queue == [] then None
      else
        var c := s.queue[0];
        Some(s.(queue := s.queue[1..], replies := s.replies + [Answer(c.id, true)],
                running := if c.command == Resume then true else if c.command == Stop then false else s.running))
    case GuestSays(event) => if !s.running then None else Some(s.(serial := s.serial + [event]))
    case PluginSends(frame) => if frame.TraceRequest? then None else Some(s.(trace := s.trace + [frame]))
    case PluginSeals =>
      if s.drains == 0 then None else Some(s.(trace := s.trace + [TraceRequest], drains := s.drains - 1))
    case ReadTrace => if s.trace == [] then None else React(s.(trace := s.trace[1..]), OnTrace(s.worker, s.trace[0]))
    case ReadQmp =>
      if s.replies == [] then None else React(s.(replies := s.replies[1..]), OnQmp(s.worker, s.replies[0]))
    case ReadGuest =>
      if s.serial == [] then None else React(s.(serial := s.serial[1..]), OnGuest(s.worker, s.serial[0]))
    case Idle => React(s, OnIdle(s.worker))
  }

  function Run(s: System, events: seq<Event>): Option<System> {
    if events == [] then Some(s)
    else
      match Run(s, events[..|events| - 1])
      case None => None
      case Some(t) => Step(t, events[|events| - 1])
  }

  // ---------------------------------------------------------------- what every run keeps

  /** Messages that are not asynchronous notices. */
  function Direct(ms: seq<Message>): seq<Message> {
    if ms == [] then []
    else Direct(ms[..|ms| - 1]) + if ms[|ms| - 1].Notice? then [] else [ms[|ms| - 1]]
  }

  /** Seals on the way to the worker. */
  function Seals(fs: seq<TraceFrame>): nat {
    if fs == [] then 0 else Seals(fs[..|fs| - 1]) + if fs[|fs| - 1].TraceRequest? then 1 else 0
  }

  /** One command is either still queued or answered but not yet read. */
  predicate InFlight(s: System, command: Command) {
    && s.worker.command == command && s.worker.pending > 0 && s.greeted
    && (|| (s.queue == [Sent(s.worker.pending, command)] && Direct(s.replies) == [])
        || (s.queue == [] && Direct(s.replies) == [Answer(s.worker.pending, true)]))
  }

  predicate Quiet(s: System) {
    s.worker.pending == 0 && s.queue == [] && Direct(s.replies) == []
  }

  /** The machine runs, or its resume is still queued. */
  predicate Resumed(s: System) {
    (InFlight(s, Resume) && s.running == (s.queue == [])) || (Quiet(s) && s.running)
  }

  predicate Consistent(s: System, p: Phase) {
    var w := s.worker;
    && w.nextId > w.pending && (w.greeting ==> s.greeted)
    && w.requested == (p == Asked || p == Pausing || p == Draining) && w.draining == (p == Draining)
    && w.guestComplete == (p == Finished)
    && s.drains + Seals(s.trace) == (if p == Draining then 1 else 0)
    && match p
       case Begin =>
         !w.greeting && !s.running && s.serial == [] && w.pending == 0 && s.queue == [] &&
         Direct(s.replies) == if s.greeted then [Greeting] else []
       case Negotiating => w.greeting && !s.running && s.serial == [] && InFlight(s, Capabilities)
       case Free => w.greeting && Resumed(s)
       case Finished => w.greeting && Resumed(s)
       case Asked => w.greeting && Resumed(s)
       case Pausing => w.greeting && InFlight(s, Stop) && s.running == (s.queue != [])
       case Draining => w.greeting && Quiet(s) && !s.running
       case _ => false
  }

  ghost predicate Inv(s: System) {
    PhaseOf(s.log).Some? && Consistent(s, PhaseOf(s.log).value)
  }

  lemma DirectAppend(ms: seq<Message>, m: Message)
    ensures Direct(ms + [m]) == Direct(ms) + if m.Notice? then [] else [m]
  {
    assert (ms + [m])[..|ms|] == ms;
  }

  lemma {:induction false} DirectTail(ms: seq<Message>)
    requires ms != []
    ensures Direct(ms) == (if ms[0].Notice? then [] else [ms[0]]) + Direct(ms[1..])
  {
    if |ms| > 1 {
      var front, last := ms[..|ms| - 1], ms[|ms| - 1];
      DirectTail(front);
      assert ms[1..] == front[1..] + [last];
      DirectAppend(front[1..], last);
    }
  }

  lemma SealsAppend(fs: seq<TraceFrame>, f: TraceFrame)
    ensures Seals(fs + [f]) == Seals(fs) + if f.TraceRequest? then 1 else 0
  {
    assert (fs + [f])[..|fs|] == fs;
  }

  lemma {:induction false} SealsTail(fs: seq<TraceFrame>)
    requires fs != []
    ensures Seals(fs) == (if fs[0].TraceRequest? then 1 else 0) + Seals(fs[1..])
  {
    if |fs| > 1 {
      var front, last := fs[..|fs| - 1], fs[|fs| - 1];
      SealsTail(front);
      assert fs[1..] == front[1..] + [last];
      SealsAppend(front[1..], last);
    }
  }

  lemma LogStep(log: seq<Entry>, e: Entry)
    ensures PhaseOf(log + [e]) == if PhaseOf(log).None? then None else Next(PhaseOf(log).value, e)
  {
    assert (log + [e])[..|log|] == log;
  }

  // ---------------------------------------------------------------- one step

  /** QEMU's own steps. */
  lemma QmpKeeps(s: System, e: Event)
    requires Inv(s) && (e.QmpGreets? || e.QmpExecutes? || e.QmpNotices?)
    ensures var r := Step(s, e); r.Some? ==> Inv(r.value) && r.value.log == s.log
  {
    hide PhaseOf, Direct, Seals;
    DirectAppend(s.replies, Notice);
    DirectAppend(s.replies, Greeting);
    if s.queue != [] { DirectAppend(s.replies, Answer(s.queue[0].id, true)); }
  }

  /** Steps of the guest and the plugin. */
  lemma PeersKeep(s: System, e: Event)
    requires Inv(s) && (e.GuestSays? || e.PluginSends? || e.PluginSeals?)
    ensures var r := Step(s, e); r.Some? ==> Inv(r.value) && r.value.log == s.log
  {
    hide PhaseOf, Direct, Seals;
    if e.PluginSends? { SealsAppend(s.trace, e.frame); }
    SealsAppend(s.trace, TraceRequest);
  }

  /** A QMP message: the greeting, the answer to the one command in flight, or a notice. */
  lemma ReadQmpKeeps(s: System)
    requires Inv(s)
    ensures var r := Step(s, ReadQmp); r.Some? ==> Inv(r.value)
  {
    hide PhaseOf, Direct, Seals;
    if s.replies != [] {
      DirectTail(s.replies);
      LogStep(s.log, Capable);
      LogStep(s.log, Continue);
      LogStep(s.log, Paused);
      LogStep(s.log + [Paused], Drain);
      assert s.log + [Paused] + [Drain] == s.log + [Paused, Drain];
      assert s.log + [] == s.log;
    }
  }

  lemma ReadGuestKeeps(s: System)
    requires Inv(s)
    ensures var r := Step(s, ReadGuest); r.Some? ==> Inv(r.value)
  {
    hide PhaseOf, Direct, Seals;
    LogStep(s.log, Ready);
    LogStep(s.log, Done);
    assert s.log + [] == s.log && s.queue + [] == s.queue;
  }

  lemma IdleKeeps(s: System)
    requires Inv(s)
    ensures var r := Step(s, Idle); r.Some? ==> Inv(r.value)
  {
    hide PhaseOf, Direct, Seals;
    LogStep(s.log, Pause);
    assert s.log + [] == s.log && s.queue + [] == s.queue;
  }

  /** A trace frame: only a seal for the open drain makes the worker act and continue. */
  lemma ReadTraceKeeps(s: System)
    requires Inv(s)
    ensures var r := Step(s, ReadTrace); r.Some? ==> Inv(r.value)
  {
    hide PhaseOf, Direct, Seals;
    if s.trace != [] {
      SealsTail(s.trace);
      LogStep(s.log, Sealed);
      LogStep(s.log + [Sealed], Act);
      LogStep(s.log + [Sealed] + [Act], Continue);
      assert s.log + [Sealed] + [Act] + [Continue] == s.log + [Sealed, Act, Continue];
      assert s.log + [] == s.log && s.queue + [] == s.queue;
    }
  }

  lemma StepKeeps(s: System, e: Event)
    requires Inv(s)
    ensures var r := Step(s, e); r.Some? ==> Inv(r.value)
  {
    hide Inv, Step;
    match e
    case ReadTrace => ReadTraceKeeps(s);
    case ReadQmp => ReadQmpKeeps(s);
    case ReadGuest => ReadGuestKeeps(s);
    case Idle => IdleKeeps(s);
    case QmpGreets => QmpKeeps(s, e);
    case QmpExecutes => QmpKeeps(s, e);
    case QmpNotices => QmpKeeps(s, e);
    case _ => PeersKeep(s, e);
  }

  lemma PowersOn(interactive: bool)
    ensures Inv(PoweredOn(interactive))
  {
  }

  /** Every run of the worker in its system logs a prefix of the protocol's language. */
  lemma {:induction false} RunKeeps(interactive: bool, events: seq<Event>)
    ensures var r := Run(PoweredOn(interactive), events); r.Some? ==> Inv(r.value)
  {
    hide Inv, Step;
    if events == [] {
      PowersOn(interactive);
    } else {
      RunKeeps(interactive, events[..|events| - 1]);
      var before := Run(PoweredOn(interactive), events[..|events| - 1]);
      if before.Some? { StepKeeps(before.value, events[|events| - 1]); }
    }
  }

  /** What a step adds to the log. */
  function Logged(s: System, t: System): seq<Entry> {
    if |s.log| <= |t.log| then t.log[|s.log|..] else []
  }

  /**
   * An action reaches the guest only on the seal of the open drain, with the
   * machine stopped, the stop acknowledged and no command queued or unanswered.
   */
  lemma ActsWhileStopped(s: System, e: Event, t: System)
    requires Inv(s) && Step(s, e) == Some(t) && Act in Logged(s, t)
    ensures e == ReadTrace && s.trace != [] && s.trace[0] == TraceRequest
    ensures PhaseOf(s.log) == Some(Draining) && !s.running && Quiet(s) && s.drains == 0
    ensures Logged(s, t) == [Sealed, Act, Continue] && t.queue == [Sent(t.worker.pending, Resume)] && !t.running
  {
    hide PhaseOf, Direct, Seals;
    if s.trace != [] { SealsTail(s.trace); }
    if e != ReadTrace { NoActElsewhere(s, e, t); }
  }

  lemma NoActElsewhere(s: System, e: Event, t: System)
    requires Step(s, e) == Some(t) && e != ReadTrace
    ensures Act !in Logged(s, t)
  {
  }

  /** Guest completion is accepted only with no request open, and then nothing more is asked of it. */
  lemma CompletesIdle(s: System, e: Event, t: System)
    requires Inv(s) && Step(s, e) == Some(t) && Done in Logged(s, t)
    ensures !s.worker.requested && !s.worker.draining && s.drains == 0 && Seals(s.trace) == 0
    ensures PhaseOf(s.log) == Some(Free) && t.worker.guestComplete
  {
    hide PhaseOf, Direct, Seals;
  }

  function Count(log: seq<Entry>, e: Entry): nat {
    if log == [] then 0 else Count(log[..|log| - 1], e) + if log[|log| - 1] == e then 1 else 0
  }

  /** Each ready gets exactly one stop, one drain, one action and one continue. */
  lemma {:induction false} OneEach(log: seq<Entry>)
    requires PhaseOf(log).Some?
    ensures var p, n := PhaseOf(log).value, Count(log, Ready);
      && Count(log, Pause) == n - (if p == Asked then 1 else 0)
      && Count(log, Paused) == n - (if p == Asked || p == Pausing then 1 else 0)
      && Count(log, Drain) == n - (if p == Asked || p == Pausing || p == Halted then 1 else 0)
      && Count(log, Act) == n - (if p in {Asked, Pausing, Halted, Draining, Closed} then 1 else 0)
      && Count(log, Continue) == n + (if p in {Free, Finished} then 1 else 0)
  {
    if log != [] { OneEach(log[..|log| - 1]); }
  }

  /**
   * Why the system starts paused: with a guest that runs from the beginning the
   * invariant has no proof, because a request read before the greeting would stop
   * the machine before QMP is negotiated. The worker never starts QEMU that way.
   */
  lemma PausedStartIsNeeded() returns (events: seq<Event>, t: System)
    ensures Run(PoweredOn(true).(running := true), events) == Some(t)
    ensures t.log == [Ready, Pause] && PhaseOf(t.log) == None
  {
    var s := PoweredOn(true).(running := true);
    var b := HelloRuns(s);
    var d := LineRuns(s, HelloEvents(), b, GuestStart(true));
    var first := HelloEvents() + [GuestSays(GuestStart(true)), ReadGuest];
    var f := LineRuns(s, first, d, GuestReady);
    events := first + [GuestSays(GuestReady), ReadGuest];
    t := IdleRuns(s, events, f);
    events := events + [Idle];
    assert [Ready, Pause][..1] == [Ready] && [Ready][..0] == [];
  }

  function HelloEvents(): seq<Event> { [PluginSends(TraceHello(true, true)), ReadTrace] }

  /** The part of a state these runs depend on. */
  predicate Listening(s: System) {
    s.running && s.queue == [] && s.trace == [] && s.serial == [] && s.worker.interactive && s.worker.pending == 0
  }

  lemma HelloRuns(s: System) returns (b: System)
    requires Listening(s) && !s.worker.hello && !s.worker.seal
    ensures Run(s, HelloEvents()) == Some(b) && b == s.(worker := s.worker.(hello := true))
  {
    var frame := TraceHello(true, true);
    b := s.(worker := s.worker.(hello := true));
    Logs(s, b.worker, [], []);
    TraceArrives(s, frame, b);
    hide Step, React, OnTrace;
    assert Run(s, []) == Some(s);
    Extend(s, [], s, PluginSends(frame), s.(trace := [frame]));
    Extend(s, [] + [PluginSends(frame)], s.(trace := [frame]), ReadTrace, b);
    assert [] + [PluginSends(frame)] + [ReadTrace] == HelloEvents();
  }

  /** A line the guest writes, which the worker takes. */
  lemma LineRuns(s: System, events: seq<Event>, m: System, event: GuestEvent) returns (t: System)
    requires Run(s, events) == Some(m) && Listening(m) && m.worker.hello
    requires !m.worker.requested && !m.worker.guestComplete
    requires event == if m.worker.guestStarted then GuestReady else GuestStart(true)
    ensures Run(s, events + [GuestSays(event), ReadGuest]) == Some(t)
    ensures t == if event.GuestReady? then m.(worker := m.worker.(requested := true), log := m.log + [Ready])
                 else m.(worker := m.worker.(guestStarted := true))
  {
    t := if event.GuestReady? then m.(worker := m.worker.(requested := true), log := m.log + [Ready])
         else m.(worker := m.worker.(guestStarted := true));
    Logs(m, t.worker, [], if event.GuestReady? then [Ready] else []);
    GuestSpeaks(m, event, t);
    hide Step, React, OnGuest, Run;
    Extend(s, events, m, GuestSays(event), m.(serial := [event]));
    Extend(s, events + [GuestSays(event)], m.(serial := [event]), ReadGuest, t);
    assert events + [GuestSays(event)] + [ReadGuest] == events + [GuestSays(event), ReadGuest];
  }

  lemma IdleRuns(s: System, events: seq<Event>, m: System) returns (t: System)
    requires Run(s, events) == Some(m) && Listening(m) && m.worker.requested && !m.worker.draining && m.log == [Ready]
    ensures Run(s, events + [Idle]) == Some(t) && t.log == [Ready, Pause]
  {
    t := m.(worker := Ask(m.worker, Stop), queue := [Sent(m.worker.nextId, Stop)], log := [Ready, Pause]);
    Logs(m, t.worker, t.queue, [Pause]);
    assert [Ready] + [Pause] == [Ready, Pause];
    IdleStep(m);
    hide Step, React, Run;
    Extend(s, events, m, Idle, t);
  }

  /** A reaction of a system with nothing queued. */
  lemma Logs(s: System, w: Worker, sent: seq<Sent>, log: seq<Entry>)
    requires s.queue == []
    ensures React(s, Reacts(w, sent, 0, log)) == Some(s.(worker := w, queue := sent, log := s.log + log))
    ensures s.log + [] == s.log
  {
    assert [] + sent == sent;
  }

  lemma Extend(s: System, events: seq<Event>, m: System, e: Event, q: System)
    requires Run(s, events) == Some(m) && Step(m, e) == Some(q)
    ensures Run(s, events + [e]) == Some(q)
  {
    hide Step;
    assert (events + [e])[..|events|] == events;
  }

  lemma IdleStep(s: System)
    ensures Step(s, Idle) == React(s, OnIdle(s.worker))
  {
  }

  /** A frame the plugin sends into an empty pipe and the worker reads. */
  lemma TraceArrives(s: System, frame: TraceFrame, t: System)
    requires s.trace == [] && !frame.TraceRequest? && React(s, OnTrace(s.worker, frame)) == Some(t)
    ensures Step(s, PluginSends(frame)) == Some(s.(trace := [frame]))
    ensures Step(s.(trace := [frame]), ReadTrace) == Some(t)
  {
    hide OnTrace;
    assert [] + [frame] == [frame] && [frame][1..] == [];
  }

  /** A line the running guest writes and the worker reads. */
  lemma GuestSpeaks(s: System, event: GuestEvent, t: System)
    requires s.running && s.serial == [] && React(s, OnGuest(s.worker, event)) == Some(t)
    ensures Step(s, GuestSays(event)) == Some(s.(serial := [event]))
    ensures Step(s.(serial := [event]), ReadGuest) == Some(t)
  {
    hide OnGuest;
    assert [] + [event] == [event] && [event][1..] == [];
  }
}
