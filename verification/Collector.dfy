/**
vCPU callbacks, the collector thread and the control thread's stopped-world drain,
interleaved step by step. Rings are bounded queues (see `FrameRing`); what matters
here is who may flush a buffer when, and what is on the wire by then.
*/
module Collector {
  import opened Words

  /** A row is named by its position among everything its vCPU appended. */
  type Row = nat
  type Rows = seq<Row>

  datatype Item = Carried(source: nat, rows: Rows) | Ended(source: nat) | Requested

  /** Inside `flush`: about to push, pushed but not counted, counted but buffer not cleared. */
  datatype Stage = Pushing | Pushed | Counted

  /** What a vCPU's thread is doing; locked callbacks first wait for the vCPU's cold lock. */
  datatype Thread =
    | Out
    | Append(row: Row, stage: Stage)
    | Full(stage: Stage)                                   // a block row has filled the buffer
    | IdleWait | IdleFlush(stage: Stage)
    | ExitWait | ExitFlush(stage: Stage) | ExitDrain(expected: nat)
    | Gone

  datatype Owner = Nobody | Vcpu | Control

  datatype Control = Off | At(index: nat) | Flush(index: nat, stage: Stage) | Wait(index: nat, expected: nat)

  datatype Collecting = Scan | Published(source: nat) | Popped(source: nat)

  /** `flushed` and `appended` record all frames and all rows of the vCPU in order. */
  datatype Source = Source(
    buffer: Rows, ring: seq<Rows>, queued: nat, sent: nat, lock: Owner, thread: Thread,
    flushed: seq<Rows>, appended: Rows)

  datatype System = System(
    sources: seq<Source>, wire: seq<Item>, collecting: Collecting, control: Control, stopped: bool, capacity: nat)

  datatype Event =
    | AppendRow(source: nat, flushFirst: bool) | FlushFull(source: nat) | VcpuFlush(source: nat)
    | Idle(source: nat) | IdleLock(source: nat)
    | Exit(source: nat) | ExitLock(source: nat) | ExitSend(source: nat)
    | Publish(source: nat) | Pop(source: nat) | CountSent(source: nat)
    | Stop | Resume | Drain | DrainLock | DrainFlush | DrainWait | Request

  function Concat(fs: seq<Rows>): Rows {
    if fs == [] then [] else Concat(fs[..|fs| - 1]) + fs[|fs| - 1]
  }

  /** The frames of one vCPU on the wire, in wire order. */
  function Frames(wire: seq<Item>, i: nat): seq<Rows> {
    if wire == [] then []
    else
      var last := wire[|wire| - 1];
      Frames(wire[..|wire| - 1], i) + if last.Carried? && last.source == i then [last.rows] else []
  }

  // ---------------------------------------------------------------- steps

  function SetSource(s: System, i: nat, v: Source): System
    requires i < |s.sources|
  {
    s.(sources := s.sources[i := v])
  }

  /** The result of one step inside `flush`: still flushing at a stage, or done. */
  datatype Progress = Blocked | Flushing(source: Source, stage: Stage) | Flushed(source: Source)

  function FlushStep(v: Source, stage: Stage, capacity: nat): Progress {
    match stage
    case Pushing =>
      if v.buffer == [] then Flushed(v)
      else if |v.ring| >= capacity then Blocked
      else Flushing(v.(ring := v.ring + [v.buffer], flushed := v.flushed + [v.buffer]), Pushed)
    case Pushed => Flushing(v.(queued := v.queued + 1), Counted)
    case Counted => Flushed(v.(buffer := []))
  }

  function WithRow(v: Source): Source {
    v.(buffer := v.buffer + [|v.appended|], appended := v.appended + [|v.appended|], thread := Out)
  }

  /** The vCPU thread's next step inside the flush it is in. */
  function ThreadFlush(v: Source, capacity: nat): Option<Source> {
    match v.thread
    case Append(row, stage) =>
      (match FlushStep(v, stage, capacity)
       case Blocked => None
       case Flushing(w, next) => Some(w.(thread := Append(row, next)))
       case Flushed(w) => Some(WithRow(w)))
    case Full(stage) =>
      (match FlushStep(v, stage, capacity)
       case Blocked => None
       case Flushing(w, next) => Some(w.(thread := Full(next)))
       case Flushed(w) => Some(w.(thread := Out)))
    case IdleFlush(stage) =>
      (match FlushStep(v, stage, capacity)
       case Blocked => None
       case Flushing(w, next) => Some(w.(thread := IdleFlush(next)))
       case Flushed(w) => Some(w.(thread := Out, lock := Nobody)))
    case ExitFlush(stage) =>
      (match FlushStep(v, stage, capacity)
       case Blocked => None
       case Flushing(w, next) => Some(w.(thread := ExitFlush(next)))
       case Flushed(w) => Some(w.(thread := ExitDrain(w.queued))))
    case _ => None
  }

  function VcpuStep(s: System, e: Event, i: nat): Option<System>
    requires i < |s.sources|
  {
    var v := s.sources[i];
    match e
    case AppendRow(_, flushFirst) =>
      if s.stopped || v.thread != Out then None
      else if flushFirst then Some(SetSource(s, i, v.(thread := Append(|v.appended|, Pushing))))
      else Some(SetSource(s, i, WithRow(v)))
    case FlushFull(_) =>
      if s.stopped || v.thread != Out then None else Some(SetSource(s, i, v.(thread := Full(Pushing))))
    case VcpuFlush(_) =>
      (match ThreadFlush(v, s.capacity) case None => None case Some(w) => Some(SetSource(s, i, w)))
    case Idle(_) => if v.thread != Out then None else Some(SetSource(s, i, v.(thread := IdleWait)))
    case IdleLock(_) =>
      if v.thread != IdleWait || v.lock != Nobody then None
      else Some(SetSource(s, i, v.(thread := IdleFlush(Pushing), lock := Vcpu)))
    case Exit(_) => if s.stopped || v.thread != Out then None else Some(SetSource(s, i, v.(thread := ExitWait)))
    case ExitLock(_) =>
      if v.thread != ExitWait || v.lock != Nobody then None
      else Some(SetSource(s, i, v.(thread := ExitFlush(Pushing), lock := Vcpu)))
    case ExitSend(_) =>
      if !v.thread.ExitDrain? || v.sent != v.thread.expected then None
      else Some(SetSource(s, i, v.(thread := Gone, lock := Nobody)).(wire := s.wire + [Ended(i)]))
    case _ => None
  }

  function CollectStep(s: System, e: Event, i: nat): Option<System>
    requires i < |s.sources|
  {
    var v := s.sources[i];
    match e
    case Publish(_) =>
      if s.collecting != Scan || v.ring == [] then None
      else Some(s.(wire := s.wire + [Carried(i, v.ring[0])], collecting := Published(i)))
    case Pop(_) =>
      if s.collecting != Published(i) || v.ring == [] then None
      else Some(SetSource(s, i, v.(ring := v.ring[1..])).(collecting := Popped(i)))
    case CountSent(_) =>
      if s.collecting != Popped(i) then None
      else Some(SetSource(s, i, v.(sent := v.sent + 1)).(collecting := Scan))
    case _ => None
  }

  /** QMP confirms a stop only when no vCPU is inside an execution or exit callback. */
  predicate Quiescent(s: System) {
    forall i :: 0 <= i < |s.sources| ==>
      var t := s.sources[i].thread; t.Out? || t.IdleWait? || t.IdleFlush? || t.Gone?
  }

  function ControlStep(s: System, e: Event): Option<System> {
    match e
    case Stop => if s.stopped || !Quiescent(s) then None else Some(s.(stopped := true))
    case Resume => if !s.stopped || s.control != Off then None else Some(s.(stopped := false))
    case Drain => if !s.stopped || s.control != Off then None else Some(s.(control := At(0)))
    case DrainLock =>
      if !s.control.At? || s.control.index >= |s.sources| then None
      else
        var i := s.control.index;
        var v := s.sources[i];
        if v.lock != Nobody || v.thread == Gone then None
        else Some(SetSource(s, i, v.(lock := Control)).(control := Flush(i, Pushing)))
    case DrainFlush =>
      if !s.control.Flush? || s.control.index >= |s.sources| then None
      else
        var i := s.control.index;
        (match FlushStep(s.sources[i], s.control.stage, s.capacity)
         case Blocked => None
         case Flushing(w, next) => Some(SetSource(s, i, w).(control := Flush(i, next)))
         case Flushed(w) => Some(SetSource(s, i, w).(control := Wait(i, w.queued))))
    case DrainWait =>
      if !s.control.Wait? || s.control.index >= |s.sources| then None
      else
        var i := s.control.index;
        if s.sources[i].sent != s.control.expected then None
        else Some(SetSource(s, i, s.sources[i].(lock := Nobody)).(control := At(i + 1)))
    case Request =>
      if s.control != At(|s.sources|) then None else Some(s.(control := Off, wire := s.wire + [Requested]))
    case _ => None
  }

  predicate OfVcpu(e: Event) {
    e.AppendRow? || e.FlushFull? || e.VcpuFlush? || e.Idle? || e.IdleLock? || e.Exit? || e.ExitLock? || e.ExitSend?
  }

  predicate OfCollector(e: Event) { e.Publish? || e.Pop? || e.CountSent? }

  function Step(s: System, e: Event): Option<System> {
    if OfVcpu(e) then (if e.source < |s.sources| then VcpuStep(s, e, e.source) else None)
    else if OfCollector(e) then (if e.source < |s.sources| then CollectStep(s, e, e.source) else None)
    else ControlStep(s, e)
  }

  function Run(s: System, events: seq<Event>): Option<System> {
    if events == [] then Some(s)
    else
      match Run(s, events[..|events| - 1])
      case None => None
      case Some(t) => Step(t, events[|events| - 1])
  }

  // ---------------------------------------------------------------- one vCPU

  /** The flush in progress on a vCPU's buffer, whoever runs it. */
  function FlushOf(v: Source, i: nat, control: Control): Option<Stage> {
    match v.thread
    case Append(_, stage) => Some(stage)
    case Full(stage) => Some(stage)
    case IdleFlush(stage) => Some(stage)
    case ExitFlush(stage) => Some(stage)
    case _ => if control.Flush? && control.index == i then Some(control.stage) else None
  }

  /** Rows not yet handed to the ring. */
  function Unflushed(v: Source, i: nat, control: Control): Rows {
    var f := FlushOf(v, i, control);
    if f == Some(Pushed) || f == Some(Counted) then [] else v.buffer
  }

  /** Who holds the lock follows from who is in a locked section. */
  predicate Locked(v: Source, i: nat, control: Control, stopped: bool) {
    && (v.lock == Vcpu <==> v.thread.IdleFlush? || v.thread.ExitFlush? || v.thread.ExitDrain?)
    && (v.lock == Control <==> (control.Flush? || control.Wait?) && control.index == i)
    && (v.lock == Control ==> v.thread.Out? || v.thread.IdleWait?)
    && (stopped ==> v.thread.Out? || v.thread.IdleWait? || v.thread.IdleFlush? || v.thread.Gone?)
  }

  /** Frames on the wire are the first of those flushed; the ring holds the others. */
  ghost predicate Ordered(v: Source, i: nat, wire: seq<Item>, collecting: Collecting) {
    var out := |Frames(wire, i)|;
    var held, counting := (if collecting == Published(i) then 1 else 0), (if collecting == Popped(i) then 1 else 0);
    && held <= out <= |v.flushed| && Frames(wire, i) == v.flushed[..out]
    && v.ring == v.flushed[out - held..] && v.sent + held + counting == out
  }

  ghost predicate Accounted(v: Source, i: nat, control: Control) {
    && Concat(v.flushed) + Unflushed(v, i, control) == v.appended
    && v.queued + (if FlushOf(v, i, control) == Some(Pushed) then 1 else 0) == |v.flushed|
    && (v.thread.ExitDrain? ==> v.buffer == [] && v.thread.expected == |v.flushed|)
    && (control.Wait? && control.index == i ==> v.buffer == [] && control.expected == |v.flushed|)
  }

  /** Everything the vCPU appended is on the wire. */
  ghost predicate Drained(v: Source, i: nat, wire: seq<Item>) {
    v.buffer == [] && |Frames(wire, i)| == |v.flushed| && v.sent == |v.flushed|
  }

  /** How many vCPUs the drain in progress has finished. */
  function Done(control: Control): nat {
    if control.Off? then 0 else control.index
  }

  ghost predicate SourceInv(s: System, i: nat)
    requires i < |s.sources|
  {
    var v := s.sources[i];
    && Locked(v, i, s.control, s.stopped) && Ordered(v, i, s.wire, s.collecting) && Accounted(v, i, s.control)
    && (v.thread == Gone || i < Done(s.control) ==> Drained(v, i, s.wire))
    && (i < Done(s.control) && v.thread.IdleFlush? ==> v.thread.stage == Pushing)
    && (v.thread == Gone <==> Ended(i) in s.wire)
  }

  /** After its terminator nothing of a vCPU follows. */
  ghost predicate EndsLast(wire: seq<Item>) {
    forall k, j :: 0 <= k < j < |wire| && wire[k].Ended? ==> !(wire[j].Carried? && wire[j].source == wire[k].source)
  }

  ghost predicate Inv(s: System) {
    && (s.control != Off ==> s.stopped) && Done(s.control) <= |s.sources|
    && EndsLast(s.wire)
    && forall i :: 0 <= i < |s.sources| ==> SourceInv(s, i)
  }

  // ---------------------------------------------------------------- lists

  lemma FramesAppend(wire: seq<Item>, item: Item, i: nat)
    ensures Frames(wire + [item], i) == Frames(wire, i) + if item.Carried? && item.source == i then [item.rows] else []
  {
    assert (wire + [item])[..|wire|] == wire;
  }

  lemma ConcatAppend(fs: seq<Rows>, f: Rows)
    ensures Concat(fs + [f]) == Concat(fs) + f
  {
    assert (fs + [f])[..|fs|] == fs;
  }

  // ---------------------------------------------------------------- one flush step

  /** A flush step by whoever owns the buffer keeps the vCPU's accounts. */
  lemma FlushKeeps(v: Source, i: nat, stage: Stage, capacity: nat, wire: seq<Item>, collecting: Collecting)
    requires Ordered(v, i, wire, collecting)
    requires Concat(v.flushed) + (if stage == Pushing then v.buffer else []) == v.appended
    requires v.queued + (if stage == Pushed then 1 else 0) == |v.flushed|
    ensures var p := FlushStep(v, stage, capacity);
      && (p.Flushing? ==>
            && Ordered(p.source, i, wire, collecting) && p.stage != Pushing
            && p.source == v.(ring := p.source.ring, flushed := p.source.flushed, queued := p.source.queued)
            && Concat(p.source.flushed) == v.appended
            && p.source.queued + (if p.stage == Pushed then 1 else 0) == |p.source.flushed|)
      && (p.Flushed? ==>
            && Ordered(p.source, i, wire, collecting) && p.source == v.(buffer := [])
            && Concat(v.flushed) == v.appended && v.queued == |v.flushed|)
  {
    hide Ordered, Concat;
    assert Concat(v.flushed) + [] == Concat(v.flushed);
    if stage == Pushing && v.buffer != [] && |v.ring| < capacity {
      ConcatAppend(v.flushed, v.buffer);
      PushOrdered(v, i, wire, collecting);
    }
    OrderedRing(v, v.(buffer := []), i, wire, collecting);
    OrderedRing(v, v.(queued := v.queued + 1), i, wire, collecting);
  }

  lemma PushOrdered(v: Source, i: nat, wire: seq<Item>, collecting: Collecting)
    requires Ordered(v, i, wire, collecting)
    ensures Ordered(v.(ring := v.ring + [v.buffer], flushed := v.flushed + [v.buffer]), i, wire, collecting)
  {
    hide Frames;
    var out := |Frames(wire, i)|;
    var from := out - if collecting == Published(i) then 1 else 0;
    assert (v.flushed + [v.buffer])[..out] == v.flushed[..out];
    assert (v.flushed + [v.buffer])[from..] == v.flushed[from..] + [v.buffer];
  }

  /** The order on the wire does not depend on the rest of the vCPU's state. */
  lemma OrderedRing(v: Source, w: Source, i: nat, wire: seq<Item>, collecting: Collecting)
    requires Ordered(v, i, wire, collecting) && w.ring == v.ring && w.flushed == v.flushed && w.sent == v.sent
    ensures Ordered(w, i, wire, collecting)
  {
    hide Frames;
  }

  /** A step that changes only vCPU `i` and nothing the others are judged by. */
  lemma Others(s: System, t: System, i: nat)
    requires Inv(s) && i < |s.sources| == |t.sources| && t.sources == s.sources[i := t.sources[i]]
    requires t.wire == s.wire && t.collecting == s.collecting && t.control == s.control && t.stopped == s.stopped
    requires SourceInv(t, i)
    ensures Inv(t)
  {
    hide SourceInv, EndsLast;
    forall j | 0 <= j < |t.sources| && j != i ensures SourceInv(t, j) {
      assert SourceInv(s, j);
      SameSource(s, t, j);
    }
  }

  lemma SameSource(s: System, t: System, j: nat)
    requires j < |s.sources| == |t.sources| && SourceInv(s, j) && t.sources[j] == s.sources[j]
    requires t.wire == s.wire && t.collecting == s.collecting && t.control == s.control && t.stopped == s.stopped
    ensures SourceInv(t, j)
  {
    hide Frames, Concat, Unflushed;
  }

  // ---------------------------------------------------------------- vCPU steps

  lemma SimpleVcpuKeeps(s: System, e: Event, i: nat)
    requires Inv(s) && i < |s.sources| && OfVcpu(e) && !e.VcpuFlush? && !e.ExitSend? && !e.AppendRow?
    ensures var r := VcpuStep(s, e, i); r.Some? ==> Inv(r.value)
  {
    var r := VcpuStep(s, e, i);
    if r.Some? {
      hide Frames, Concat, EndsLast;
      assert SourceInv(s, i);
      assert SourceInv(r.value, i);
      hide SourceInv;
      Others(s, r.value, i);
    }
  }

  lemma RowKeeps(v: Source, i: nat, control: Control)
    requires Accounted(v, i, control) && FlushOf(v, i, control) == None && !v.thread.ExitDrain?
    requires !(control.Wait? && control.index == i)
    ensures Accounted(WithRow(v), i, control)
  {
    hide Concat;
    assert Concat(v.flushed) + (v.buffer + [|v.appended|]) == Concat(v.flushed) + v.buffer + [|v.appended|];
  }

  lemma AppendKeeps(s: System, flushFirst: bool, i: nat)
    requires Inv(s) && i < |s.sources|
    ensures var r := VcpuStep(s, AppendRow(i, flushFirst), i); r.Some? ==> Inv(r.value)
  {
    var r := VcpuStep(s, AppendRow(i, flushFirst), i);
    if r.Some? {
      hide Frames, Concat, EndsLast;
      assert SourceInv(s, i);
      if !flushFirst { RowKeeps(s.sources[i], i, s.control); }
      assert SourceInv(r.value, i);
      hide SourceInv;
      Others(s, r.value, i);
    }
  }

  /** The flush a vCPU's own thread runs. */
  lemma ThreadFlushKeeps(s: System, i: nat)
    requires Inv(s) && i < |s.sources|
    ensures var r := VcpuStep(s, VcpuFlush(i), i); r.Some? ==> Inv(r.value)
  {
    hide SourceInv, EndsLast;
    var r := VcpuStep(s, VcpuFlush(i), i);
    if r.Some? {
      assert SourceInv(s, i);
      FlushInv(s, i, r.value);
      Others(s, r.value, i);
    }
  }

  lemma FlushInv(s: System, i: nat, t: System)
    requires i < |s.sources| && SourceInv(s, i) && VcpuStep(s, VcpuFlush(i), i) == Some(t)
    requires s.control != Off ==> s.stopped
    ensures SourceInv(t, i)
  {
    hide SourceInv, FlushStep;
    FlushStarts(s, i);
    var v := s.sources[i];
    FlushKeeps(v, i, v.thread.stage, s.capacity, s.wire, s.collecting);
    var p := FlushStep(v, v.thread.stage, s.capacity);
    if p.Flushing? {
      NotDrained(s, i);
      FlushingThread(s, i, t);
      hide VcpuStep, Ordered, Concat;
      FlushingInv(s, i, t, p.source, p.stage);
    } else {
      FlushedInv(s, i, t);
    }
  }

  predicate InFlush(t: Thread) {
    t.Append? || t.Full? || t.IdleFlush? || t.ExitFlush?
  }

  predicate SameCallback(t: Thread, u: Thread) {
    && (t.Append? <==> u.Append?) && (t.Full? <==> u.Full?) && (t.IdleFlush? <==> u.IdleFlush?)
    && (t.ExitFlush? <==> u.ExitFlush?)
  }

  /** What a flush in progress means for its vCPU. */
  lemma FlushStarts(s: System, i: nat)
    requires i < |s.sources| && SourceInv(s, i)
    ensures var v := s.sources[i];
      InFlush(v.thread) ==>
        && Ordered(v, i, s.wire, s.collecting)
        && Concat(v.flushed) + (if v.thread.stage == Pushing then v.buffer else []) == v.appended
        && v.queued + (if v.thread.stage == Pushed then 1 else 0) == |v.flushed|
  {
    hide Ordered, Concat, Drained;
  }

  lemma FlushingInv(s: System, i: nat, t: System, from: Source, stage: Stage)
    requires i < |s.sources| == |t.sources| && SourceInv(s, i) && i >= Done(s.control)
    requires t == SetSource(s, i, t.sources[i])
    requires (s.control != Off ==> s.stopped) && stage != Pushing && Ordered(from, i, s.wire, s.collecting)
    requires var v, w := s.sources[i], t.sources[i];
      && from == v.(ring := from.ring, flushed := from.flushed, queued := from.queued) && w == from.(thread := w.thread)
      && InFlush(v.thread)
      && SameCallback(v.thread, w.thread)
      && InFlush(w.thread) && w.thread.stage == stage
      && Concat(from.flushed) == v.appended && from.queued + (if stage == Pushed then 1 else 0) == |from.flushed|
    ensures SourceInv(t, i)
  {
    hide Frames, Ordered, Concat, Drained;
    OrderedRing(from, t.sources[i], i, s.wire, s.collecting);
    assert Concat(from.flushed) + [] == Concat(from.flushed);
  }

  /** A vCPU that still pushes rows is not among those the drain has finished. */
  lemma NotDrained(s: System, i: nat)
    requires i < |s.sources| && SourceInv(s, i) && (s.control != Off ==> s.stopped)
    requires var v := s.sources[i];
      InFlush(v.thread) &&
        FlushStep(v, v.thread.stage, s.capacity).Flushing?
    ensures i >= Done(s.control)
  {
    hide Frames, Ordered, Accounted;
    FlushingMeansRows(s.sources[i], s.capacity);
  }

  /** The thread stays in its callback, one stage on. */
  lemma FlushingThread(s: System, i: nat, t: System)
    requires i < |s.sources| && VcpuStep(s, VcpuFlush(i), i) == Some(t)
    requires FlushStep(s.sources[i], s.sources[i].thread.stage, s.capacity).Flushing?
    ensures var v, w := s.sources[i], t.sources[i];
      var p := FlushStep(v, v.thread.stage, s.capacity);
      && t == SetSource(s, i, w) && w == p.source.(thread := w.thread)
      && InFlush(v.thread)
      && SameCallback(v.thread, w.thread)
      && InFlush(w.thread) && w.thread.stage == p.stage
  {
    hide FlushStep;
  }

  lemma FlushingMeansRows(v: Source, capacity: nat)
    requires InFlush(v.thread)
    requires FlushStep(v, v.thread.stage, capacity).Flushing?
    ensures v.thread.stage != Counted && (v.thread.stage == Pushing ==> v.buffer != [])
  {
  }

  lemma FlushedInv(s: System, i: nat, t: System)
    requires i < |s.sources| && SourceInv(s, i) && VcpuStep(s, VcpuFlush(i), i) == Some(t)
    requires s.control != Off ==> s.stopped
    requires var v := s.sources[i];
      var p := FlushStep(v, v.thread.stage, s.capacity);
      && p.Flushed? && Ordered(p.source, i, s.wire, s.collecting) && p.source == v.(buffer := [])
      && Concat(v.flushed) == v.appended && v.queued == |v.flushed|
    ensures SourceInv(t, i)
  {
    var v, w := s.sources[i], t.sources[i];
    var p := FlushStep(v, v.thread.stage, s.capacity);
    hide Frames, Ordered, Concat, FlushStep;
    OrderedRing(p.source, w, i, s.wire, s.collecting);
    assert Concat(w.flushed) + [] == Concat(w.flushed);
    if v.thread.Append? { assert [] + [|v.appended|] == w.buffer; }
  }

  /** A vCPU sees the same wire, collector and drain progress. */
  lemma Unaffected(s: System, t: System, j: nat)
    requires j < |s.sources| == |t.sources| && SourceInv(s, j) && t.sources[j] == s.sources[j]
    requires Frames(t.wire, j) == Frames(s.wire, j) && (Ended(j) in t.wire <==> Ended(j) in s.wire)
    requires t.collecting == Published(j) <==> s.collecting == Published(j)
    requires t.collecting == Popped(j) <==> s.collecting == Popped(j)
    requires SameControl(s.control, t.control, j) && (t.stopped ==> s.stopped)
    ensures SourceInv(t, j)
  {
    hide Frames, Concat;
  }

  /** The control thread treats the vCPU as before. */
  predicate SameControl(a: Control, b: Control, j: nat) {
    a == b || (!Involves(a, j) && !Involves(b, j) && (j < Done(b) ==> j < Done(a)))
  }

  predicate Involves(c: Control, j: nat) {
    (c.Flush? || c.Wait?) && c.index == j
  }

  lemma WaitedOut(v: Source, i: nat, wire: seq<Item>, collecting: Collecting)
    requires Ordered(v, i, wire, collecting) && v.sent == |v.flushed|
    ensures |Frames(wire, i)| == |v.flushed| && collecting != Published(i) && collecting != Popped(i) && v.ring == []
  {
    hide Frames;
  }

  lemma InWire(wire: seq<Item>, item: Item, x: Item)
    ensures x in wire + [item] <==> x in wire || x == item
  {
  }

  /** The terminator goes out only after every frame of the vCPU. */
  lemma ExitSendKeeps(s: System, i: nat)
    requires Inv(s) && i < |s.sources|
    ensures var r := VcpuStep(s, ExitSend(i), i); r.Some? ==> Inv(r.value)
  {
    var r := VcpuStep(s, ExitSend(i), i);
    if r.Some? {
      var t := r.value;
      assert SourceInv(s, i);
      WaitedOut(s.sources[i], i, s.wire, s.collecting);
      FramesAppend(s.wire, Ended(i), i);
      hide Frames, Concat;
      assert SourceInv(t, i);
      hide SourceInv, Ordered;
      forall j | 0 <= j < |t.sources| && j != i ensures SourceInv(t, j) {
        assert SourceInv(s, j);
        FramesAppend(s.wire, Ended(i), j);
        InWire(s.wire, Ended(i), Ended(j));
        Unaffected(s, t, j);
      }
      assert EndsLast(t.wire);
    }
  }

  // ---------------------------------------------------------------- collector steps

  lemma PublishKeeps(s: System, i: nat)
    requires Inv(s) && i < |s.sources|
    ensures var r := CollectStep(s, Publish(i), i); r.Some? ==> Inv(r.value)
  {
    var r := CollectStep(s, Publish(i), i);
    if r.Some? {
      var t, v := r.value, s.sources[i];
      var item := Carried(i, v.ring[0]);
      assert SourceInv(s, i);
      if v.sent == |v.flushed| { WaitedOut(v, i, s.wire, s.collecting); }
      FramesAppend(s.wire, item, i);
      hide Frames, Concat;
      assert Ended(i) !in s.wire;
      var out := |Frames(s.wire, i)|;
      assert v.flushed[..out + 1] == v.flushed[..out] + [v.ring[0]];
      InWire(s.wire, item, Ended(i));
      assert SourceInv(t, i);
      hide SourceInv, Ordered;
      forall j | 0 <= j < |t.sources| && j != i ensures SourceInv(t, j) {
        assert SourceInv(s, j);
        FramesAppend(s.wire, item, j);
        InWire(s.wire, item, Ended(j));
        Unaffected(s, t, j);
      }
      NothingAfterEnd(s.wire, item);
    }
  }

  lemma NothingAfterEnd(wire: seq<Item>, item: Item)
    requires EndsLast(wire) && item.Carried? && Ended(item.source) !in wire
    ensures EndsLast(wire + [item])
  {
    var more := wire + [item];
    forall k, j | 0 <= k < j < |more| && more[k].Ended?
      ensures !(more[j].Carried? && more[j].source == more[k].source)
    {
      assert more[k] == wire[k] && wire[k] in wire;
      if j < |wire| { assert more[j] == wire[j]; }
    }
  }

  lemma PoppedInv(s: System, e: Event, i: nat, t: System)
    requires i < |s.sources| && SourceInv(s, i) && (e == Pop(i) || e == CountSent(i)) && CollectStep(s, e, i) == Some(t)
    ensures SourceInv(t, i)
  {
    hide Frames, Concat;
  }

  lemma PopKeeps(s: System, e: Event, i: nat)
    requires Inv(s) && i < |s.sources| && (e == Pop(i) || e == CountSent(i))
    ensures var r := CollectStep(s, e, i); r.Some? ==> Inv(r.value)
  {
    hide SourceInv, Ordered, EndsLast;
    var r := CollectStep(s, e, i);
    if r.Some? {
      var t := r.value;
      assert SourceInv(s, i);
      PoppedInv(s, e, i, t);
      forall j | 0 <= j < |t.sources| && j != i ensures SourceInv(t, j) {
        assert SourceInv(s, j);
        Unaffected(s, t, j);
      }
    }
  }

  // ---------------------------------------------------------------- control steps

  /** The start and end of a drain, the stop and the resume. */
  lemma WorldKeeps(s: System, e: Event)
    requires Inv(s) && (e == Resume || e == Drain || e == Request)
    ensures var r := ControlStep(s, e); r.Some? ==> Inv(r.value)
  {
    var r := ControlStep(s, e);
    if r.Some? {
      hide SourceInv, Frames, EndsLast;
      var t := r.value;
      RequestLast(s.wire);
      forall j | 0 <= j < |t.sources| ensures SourceInv(t, j) {
        assert SourceInv(s, j);
        FramesAppend(s.wire, Requested, j);
        InWire(s.wire, Requested, Ended(j));
        Unaffected(s, t, j);
      }
    }
  }

  lemma RequestLast(wire: seq<Item>)
    requires EndsLast(wire)
    ensures EndsLast(wire + [Requested])
  {
  }

  lemma StopKeeps(s: System)
    requires Inv(s)
    ensures var r := ControlStep(s, Stop); r.Some? ==> Inv(r.value)
  {
    hide Frames, Concat, EndsLast, Ordered, Accounted, Drained;
    var r := ControlStep(s, Stop);
    if r.Some? {
      forall j | 0 <= j < |s.sources| ensures SourceInv(r.value, j) { assert SourceInv(s, j); }
    }
  }

  /** Steps of the drain on the vCPU it is at. */
  lemma DrainKeeps(s: System, e: Event)
    requires Inv(s) && (e == DrainLock || e == DrainFlush || e == DrainWait)
    ensures var r := ControlStep(s, e); r.Some? ==> Inv(r.value)
  {
    var r := ControlStep(s, e);
    if r.Some? {
      hide SourceInv, EndsLast;
      var t, i := r.value, s.control.index;
      assert SourceInv(s, i);
      DrainInv(s, e, t);
      forall j | 0 <= j < |t.sources| && j != i ensures SourceInv(t, j) {
        assert SourceInv(s, j);
        Unaffected(s, t, j);
      }
    }
  }

  lemma DrainInv(s: System, e: Event, t: System)
    requires !s.control.Off? && s.stopped && s.control.index < |s.sources| && SourceInv(s, s.control.index)
    requires (e == DrainLock || e == DrainFlush || e == DrainWait) && ControlStep(s, e) == Some(t)
    ensures SourceInv(t, s.control.index)
  {
    if e == DrainFlush {
      hide SourceInv;
      DrainFlushInv(s, t);
    } else {
      var i := s.control.index;
      var v := s.sources[i];
      if e == DrainWait { WaitedOut(v, i, s.wire, s.collecting); }
      hide Frames, Concat, Ordered, FlushStep;
      OrderedRing(v, t.sources[i], i, s.wire, s.collecting);
    }
  }

  lemma DrainFlushInv(s: System, t: System)
    requires s.control.Flush? && s.stopped && s.control.index < |s.sources| && SourceInv(s, s.control.index)
    requires ControlStep(s, DrainFlush) == Some(t)
    ensures SourceInv(t, s.control.index)
  {
    var i := s.control.index;
    var v, w := s.sources[i], t.sources[i];
    hide Frames, Concat, Ordered, FlushStep;
    assert Concat(v.flushed) + [] == Concat(v.flushed);
    FlushKeeps(v, i, s.control.stage, s.capacity, s.wire, s.collecting);
    assert Concat(w.flushed) + [] == Concat(w.flushed);
  }

  // ---------------------------------------------------------------- whole runs

  lemma StepKeeps(s: System, e: Event)
    requires Inv(s)
    ensures var r := Step(s, e); r.Some? ==> Inv(r.value)
  {
    hide Inv, VcpuStep, CollectStep, ControlStep;
    if OfVcpu(e) {
      if e.source < |s.sources| {
        if e.VcpuFlush? { ThreadFlushKeeps(s, e.source); }
        else if e.ExitSend? { ExitSendKeeps(s, e.source); }
        else if e.AppendRow? { AppendKeeps(s, e.flushFirst, e.source); }
        else { SimpleVcpuKeeps(s, e, e.source); }
      }
    } else if OfCollector(e) {
      if e.source < |s.sources| {
        if e.Publish? { PublishKeeps(s, e.source); } else { PopKeeps(s, e, e.source); }
      }
    } else if e == Stop { StopKeeps(s); }
    else if e == DrainLock || e == DrainFlush || e == DrainWait { DrainKeeps(s, e); }
    else { WorldKeeps(s, e); }
  }

  lemma {:induction false} RunKeeps(s: System, events: seq<Event>)
    requires Inv(s)
    ensures Run(s, events).Some? ==> Inv(Run(s, events).value)
  {
    hide Inv, Step;
    if events == [] {
    } else {
      RunKeeps(s, events[..|events| - 1]);
      var t := Run(s, events[..|events| - 1]);
      if t.Some? { StepKeeps(t.value, events[|events| - 1]); }
    }
  }

  const NEW: Source := Source([], [], 0, 0, Nobody, Out, [], [])

  lemma StartInv(sources: seq<Source>, capacity: nat)
    requires forall i :: 0 <= i < |sources| ==> sources[i] == NEW
    ensures Inv(System(sources, [], Scan, Off, false, capacity))
  {
  }

  /** In every reachable state each vCPU's frames are on the wire in flush order, with nothing after its terminator. */
  lemma WireOrder(s: System, i: nat)
    requires Inv(s) && i < |s.sources|
    ensures Frames(s.wire, i) <= s.sources[i].flushed && EndsLast(s.wire)
    ensures Ended(i) in s.wire
            ==> Frames(s.wire, i) == s.sources[i].flushed && Concat(s.sources[i].flushed) == s.sources[i].appended
  {
    hide Frames, EndsLast;
    assert SourceInv(s, i);
    var v := s.sources[i];
    assert v.flushed[..|v.flushed|] == v.flushed;
    assert Concat(v.flushed) + [] == Concat(v.flushed);
  }

  /** When a drain asks for the next action, every row appended before the stop is already on the wire. */
  lemma RequestAfterEverything(s: System, t: System)
    requires Inv(s) && Step(s, Request) == Some(t)
    ensures t.wire == s.wire + [Requested] && s.stopped
    ensures forall i :: 0 <= i < |s.sources| ==> Concat(Frames(s.wire, i)) == s.sources[i].appended
  {
    hide Frames, EndsLast;
    forall i | 0 <= i < |s.sources| ensures Concat(Frames(s.wire, i)) == s.sources[i].appended {
      assert SourceInv(s, i);
      var v := s.sources[i];
      assert v.flushed[..|v.flushed|] == v.flushed;
      assert Concat(v.flushed) + [] == Concat(v.flushed);
    }
  }

  /** While the world is stopped no vCPU appends a row. */
  lemma StoppedAppendsNothing(s: System, e: Event, t: System, i: nat)
    requires Inv(s) && s.stopped && Step(s, e) == Some(t) && i < |s.sources|
    ensures |t.sources| == |s.sources| && t.sources[i].appended == s.sources[i].appended
  {
    hide Frames, Concat, EndsLast, Ordered, Accounted, Drained;
    assert SourceInv(s, i);
  }
}
