/**
Interactive system capture end to end: the capture callbacks of all vCPUs together
with the action windows, the drain at every action boundary and the drain at exit.
The callbacks themselves see to it that every boundary is ready; what remains is that
the window drained at exit comes after a terminator of a vCPU that has rows in it.
*/
module ActionCapture {
  import opened Words
  import opened Wire
  import opened WindowReducer
  import opened Validator
  import opened ValidatorRuns
  import opened RowBatches
  import opened RowAcceptance
  import opened RowStreams
  import Contexts
  import F = WindowFrames
  import W = WindowAcceptance
  import A = ActionWindows
  import C = RawCapture
  import T = RawTraces
  import X = ContextCrowding

  /** The window half of the plugin and its capture half. */
  datatype Joint = Joint(plugin: A.Plugin, raw: C.Raw)

  datatype Event =
    | Call(index: nat, act: C.Act)      // a callback that records no block
    | Block(index: nat, act: C.Act)     // a recorded block: observed by the window and captured
    | Mark(marker: A.Event)             // a block that begins, ends or aborts the window
    | Drain(closing: bool)

  // ---------------------------------------------------------------- steps

  /** Flushing every active vCPU, as both drains do first. */
  function Flushes(vcpus: seq<C.Vcpu>): seq<C.Event> {
    if vcpus == [] then []
    else
      var last := |vcpus| - 1;
      Flushes(vcpus[..last]) + if vcpus[last].life == C.Active then [C.Event(last, C.Flush)] else []
  }

  const NO_CONTEXT: Contexts.Context := Contexts.Context(0, 0, 0, 0, 0, 0)

  /** Ending every active vCPU, without reading registers. */
  function Ends(vcpus: seq<C.Vcpu>): seq<C.Event> {
    if vcpus == [] then []
    else
      var last := |vcpus| - 1;
      Ends(vcpus[..last]) +
      if vcpus[last].life == C.Active then [C.Event(last, C.Exit(false, 0, NO_CONTEXT, [], false))] else []
  }

  /** Frames that carry no rows of a vCPU. */
  function Bare(frames: seq<Frame>): (sent: seq<Sent>)
    ensures |sent| == |frames| && forall i :: 0 <= i < |sent| ==> sent[i] == Sent(frames[i], [])
  {
    seq(|frames|, i requires 0 <= i < |frames| => Sent(frames[i], []))
  }

  function Lives(vcpus: seq<C.Vcpu>): (active: seq<bool>)
    ensures |active| == |vcpus| && forall i :: 0 <= i < |vcpus| ==> active[i] == (vcpus[i].life == C.Active)
  {
    seq(|vcpus|, i requires 0 <= i < |vcpus| => vcpus[i].life == C.Active)
  }

  function With(p: A.Plugin, r: C.Raw): Joint {
    Joint(p.(active := Lives(r.vcpus)), r)
  }

  function DrainStep(j: Joint, closing: bool): Option<Joint> {
    match (C.RunEvents(j.raw, Flushes(j.raw.vcpus)), A.DrainStep(j.plugin, closing))
    case (Some(r), Continued(p, frames)) => Some(With(p, r.(wire := r.wire + Bare(frames))))
    case _ => None
  }

  function Step(j: Joint, e: Event): Option<Joint> {
    match e
    case Call(index, act) =>
      if act.Enter? then None
      else
        (match C.Step(j.raw, C.Event(index, act)) case None => None case Some(r) => Some(With(j.plugin, r)))
    case Block(index, act) =>
      if !act.Enter? then None
      else
        (match (C.Step(j.raw, C.Event(index, act)), A.StepPlugin(j.plugin, A.Observe(index, act.pc)))
         case (Some(r), Continued(p, _)) => Some(With(p, r))
         case _ => None)
    case Mark(marker) =>
      if !(marker.Begin? || marker.End? || marker.Abort?) then None
      else
        (match A.StepPlugin(j.plugin, marker) case Failed => None case Continued(p, _) => Some(With(p, j.raw)))
    case Drain(closing) => DrainStep(j, closing)
  }

  function RunEvents(j: Joint, events: seq<Event>): Option<Joint> {
    if events == [] then Some(j)
    else
      match RunEvents(j, events[..|events| - 1])
      case None => None
      case Some(m) => Step(m, events[|events| - 1])
  }

  /** The drain at exit: raw tails, the open window, then a terminator for every vCPU still active. */
  function Finished(j: Joint): Option<Joint> {
    match (C.RunEvents(j.raw, Flushes(j.raw.vcpus)), A.FinishStep(j.plugin))
    case (Some(r), Continued(p, frames)) =>
      var q := r.(wire := r.wire + Bare(frames));
      (match C.RunEvents(q, Ends(q.vcpus)) case None => None case Some(t) => Some(With(p, t)))
    case _ => None
  }

  // ---------------------------------------------------------------- the invariant

  /** What the windows know of the stream. */
  ghost predicate Windowed(p: A.Plugin, s: State) {
    var m := p.reducer;
    && Configurable(|m.blocks|, m.capacity) && |m.blocks| == |p.active| <= MAX_SOURCES
    && s.features.kernel && s.features.transitionWindows && !s.features.contextFilter
    && s.windows.expected == p.expected
    && s.windows.next == (if m.phase == Idle then m.window + 1 else m.window)
    && (m.phase != Idle ==> 0 < m.window)
    && s.windows.keys == {} && s.windows.observed == 0 && s.windows.sourcesSeen == 0 && !s.windows.rows
    && (s.windows.sources != 0 ==> s.windows.sources == |m.blocks| && s.windows.capacity == m.capacity)
  }

  /** Once an action was requested, every vCPU has been started. */
  predicate Started(j: Joint, s: State) {
    s.windows.sources != 0 || j.plugin.expected ==>
      forall i :: 0 <= i < |j.raw.vcpus| ==> j.raw.vcpus[i].life != C.Unused
  }

  ghost predicate Joined(s: State, j: Joint) {
    C.Tracks(s, j.raw) && Windowed(j.plugin, s) && j.plugin.active == Lives(j.raw.vcpus) && Started(j, s)
  }

  lemma {:induction false} FollowKeeps(f: Features, index: nat, source: Source, items: seq<Item>)
    requires RawRows(f, items)
    ensures var end := Follow(f, index, source, items);
      end.Some? ==> end.value.windowRows == source.windowRows && (items == [] || !source.ended)
  {
    hide RawRow, SourceRow;
    if items == [] {
    } else {
      var front, x := items[..|items| - 1], items[|items| - 1];
      FollowKeeps(f, index, source, front);
      assert RawRow(f, x);
      var mid := Follow(f, index, source, front);
      if mid.Some? { RowKeeps(f, index, mid.value, x); }
      if front == [] && mid.Some? { assert mid.value == source; }
    }
  }

  lemma RowKeeps(f: Features, index: nat, source: Source, x: Item)
    requires RawRow(f, x)
    ensures var after := SourceRow(f, index, source, x);
      after.Some? ==> after.value.windowRows == source.windowRows && !source.ended
  {
    hide BaselineComplete, AllValid;
  }

  lemma CpuMirrors(c: C.Config, s: State, i: nat, v: C.Vcpu)
    requires s.features == c.features && i < MAX_SOURCES && C.CpuTracks(c, s, i, v)
    ensures s.sources[i].windowRows == 0 && (s.sources[i].ended ==> v.life == C.Gone)
    ensures v.life == C.Gone ==> s.sources[i].ended
  {
    hide Valid, C.SameRegisters, RawRows;
    if v.life == C.Active {
      var end: Source :| C.Link(c, s, i, v, end);
      FollowKeeps(c.features, i, s.sources[i], v.batch.items);
      NothingFollows(c.features, i, s.sources[i]);
      hide Follow;
    }
  }

  /** Capture and windows together mirror the stream. */
  lemma JoinedMirrors(s: State, j: Joint)
    requires Joined(s, j)
    ensures A.Mirrors(j.plugin, s)
    ensures forall i :: 0 <= i < |j.raw.vcpus| ==>
      i < MAX_SOURCES && (s.sources[i].ended <==> j.raw.vcpus[i].life == C.Gone)
  {
    hide C.CpuTracks, Configurable;
    forall i | 0 <= i < |j.raw.vcpus|
      ensures i < MAX_SOURCES && s.sources[i].windowRows == 0
      ensures s.sources[i].ended <==> j.raw.vcpus[i].life == C.Gone
    {
      assert C.CpuTracks(j.raw.config, s, i, j.raw.vcpus[i]);
      CpuMirrors(j.raw.config, s, i, j.raw.vcpus[i]);
    }
    forall i | |j.raw.vcpus| <= i < MAX_SOURCES ensures s.sources[i].windowRows == 0 {
      assert C.Silent(s.sources[i]);
    }
  }

  // ---------------------------------------------------------------- flushing and ending all vCPUs

  lemma RunLast(r: C.Raw, events: seq<C.Event>, e: C.Event)
    ensures C.RunEvents(r, events + [e]) ==
      match C.RunEvents(r, events) case None => None case Some(m) => C.Step(m, e)
  {
    hide C.Step;
    assert (events + [e])[..|events|] == events;
  }

  lemma FlushesNext(vcpus: seq<C.Vcpu>, n: nat)
    requires 0 < n <= |vcpus|
    ensures Flushes(vcpus[..n]) ==
      Flushes(vcpus[..n - 1]) + if vcpus[n - 1].life == C.Active then [C.Event(n - 1, C.Flush)] else []
  {
    assert vcpus[..n][..n - 1] == vcpus[..n - 1];
  }

  lemma EndsNext(vcpus: seq<C.Vcpu>, n: nat)
    requires 0 < n <= |vcpus|
    ensures Ends(vcpus[..n]) ==
      Ends(vcpus[..n - 1]) +
      if vcpus[n - 1].life == C.Active then [C.Event(n - 1, C.Exit(false, 0, NO_CONTEXT, [], false))] else []
  {
    assert vcpus[..n][..n - 1] == vcpus[..n - 1];
  }

  lemma NothingRuns(r: C.Raw)
    ensures Flushes(r.vcpus[..0]) == [] && Ends(r.vcpus[..0]) == [] && C.AllFine([])
    ensures C.RunEvents(r, []) == Some(r)
  {
  }

  /** After flushing the first `n` vCPUs, theirs are empty and the others are as they were. */
  lemma {:induction false} FlushesRun(r: C.Raw, n: nat) returns (q: C.Raw)
    requires n <= |r.vcpus| && !r.config.features.executableLayout
    ensures C.RunEvents(r, Flushes(r.vcpus[..n])) == Some(q) && C.AllFine(Flushes(r.vcpus[..n]))
    ensures q.config == r.config && |q.vcpus| == |r.vcpus|
    ensures forall i :: 0 <= i < |r.vcpus| ==> q.vcpus[i].life == r.vcpus[i].life
    ensures forall i :: 0 <= i < n && r.vcpus[i].life == C.Active ==> q.vcpus[i].batch.items == []
    ensures forall i :: n <= i < |r.vcpus| ==> q.vcpus[i] == r.vcpus[i]
  {
    hide C.Step, C.RunEvents, C.AllFine, Flushes, Ends;
    NothingRuns(r);
    if n == 0 {
      q := r;
    } else {
      q := FlushesRun(r, n - 1);
      FlushesNext(r.vcpus, n);
      var e, front := C.Event(n - 1, C.Flush), Flushes(r.vcpus[..n - 1]);
      if r.vcpus[n - 1].life == C.Active {
        FlushStep(q, n - 1);
        RunLast(r, front, e);
        C.FineLast(front, e);
        q := C.Step(q, e).value;
      } else {
        assert front + [] == front;
      }
    }
  }

  lemma FlushStep(r: C.Raw, i: nat)
    requires i < |r.vcpus| && r.vcpus[i].life == C.Active && !r.config.features.executableLayout
    ensures var q := C.Step(r, C.Event(i, C.Flush));
      && q.Some? && q.value.config == r.config && |q.value.vcpus| == |r.vcpus|
      && q.value.vcpus[i].life == C.Active && q.value.vcpus[i].batch.items == []
      && forall k :: 0 <= k < |r.vcpus| && k != i ==> q.value.vcpus[k] == r.vcpus[k]
  {
    hide Drained;
  }

  /** After ending the first `n` vCPUs, none of them is active. */
  lemma {:induction false} EndsRun(r: C.Raw, n: nat) returns (q: C.Raw)
    requires n <= |r.vcpus| && !r.config.features.executableLayout
    ensures C.RunEvents(r, Ends(r.vcpus[..n])) == Some(q) && C.AllFine(Ends(r.vcpus[..n]))
    ensures q.config == r.config && |q.vcpus| == |r.vcpus|
    ensures forall i :: 0 <= i < n ==>
      q.vcpus[i].life == if r.vcpus[i].life == C.Active then C.Gone else r.vcpus[i].life
    ensures forall i :: n <= i < |r.vcpus| ==> q.vcpus[i] == r.vcpus[i]
  {
    hide C.Step, C.RunEvents, C.AllFine, Flushes, Ends;
    NothingRuns(r);
    if n == 0 {
      q := r;
    } else {
      q := EndsRun(r, n - 1);
      EndsNext(r.vcpus, n);
      var e, front := C.Event(n - 1, C.Exit(false, 0, NO_CONTEXT, [], false)), Ends(r.vcpus[..n - 1]);
      if r.vcpus[n - 1].life == C.Active {
        EndStep(q, n - 1);
        RunLast(r, front, e);
        C.FineLast(front, e);
        q := C.Step(q, e).value;
      } else {
        assert front + [] == front;
      }
    }
  }

  lemma EndStep(r: C.Raw, i: nat)
    requires i < |r.vcpus| && r.vcpus[i].life == C.Active && !r.config.features.executableLayout
    ensures var q := C.Step(r, C.Event(i, C.Exit(false, 0, NO_CONTEXT, [], false)));
      && q.Some? && q.value.config == r.config && |q.value.vcpus| == |r.vcpus| && q.value.vcpus[i].life == C.Gone
      && forall k :: 0 <= k < |r.vcpus| && k != i ==> q.value.vcpus[k] == r.vcpus[k]
  {
    hide Drained, C.EndFrame;
  }

  /** With every vCPU active and flushed, the boundary is ready. */
  lemma FlushedReady(s: State, r: C.Raw)
    requires C.Tracks(s, r) && !s.features.contextFilter
    requires forall i :: 0 <= i < |r.vcpus| ==> r.vcpus[i].life == C.Active && r.vcpus[i].batch.items == []
    ensures BoundaryReady(s)
  {
    hide C.CpuTracks, BaselineComplete, Unsampled;
    forall i | |r.vcpus| <= i < |s.sources| ensures !s.sources[i].data { assert C.Silent(s.sources[i]); }
    if s.features.registers {
      forall i | 0 <= i < |r.vcpus| && s.sources[i].data
        ensures s.sources[i].registers.Some? && BaselineComplete(s.sources[i].registers)
      {
        assert C.CpuTracks(r.config, s, i, r.vcpus[i]);
        CpuReady(r.config, s, i, r.vcpus[i]);
      }
    }
  }

  lemma CpuReady(c: C.Config, s: State, i: nat, v: C.Vcpu)
    requires s.features == c.features && i < MAX_SOURCES && C.CpuTracks(c, s, i, v)
    requires v.life == C.Active && v.batch.items == [] && c.features.registers && !c.features.contextFilter
    ensures s.sources[i].data ==> s.sources[i].registers.Some? && BaselineComplete(s.sources[i].registers)
  {
    hide Valid, C.SameRegisters, RawRows, BaselineComplete;
    var end: Source :| C.Link(c, s, i, v, end);
    NothingFollows(c.features, i, s.sources[i]);
    C.CompleteData(c, v, end);
  }

  // ---------------------------------------------------------------- bare frames

  predicate Unmixed(frames: seq<Frame>) {
    forall i :: 0 <= i < |frames| ==> WellSized(frames[i]) && frames[i].header.kind != Mixed
  }

  lemma {:induction false} BareTaken(s: State, frames: seq<Frame>)
    requires Unmixed(frames)
    ensures Sized(frames) && Frames(Bare(frames)) == frames && Apart(Bare(frames)) && MemorySent(Bare(frames)) == 0
    ensures C.Takes(s, Frames(Bare(frames))) == AcceptSingles(s, frames)
  {
    NoCountsAt();
    hide NoTwins, AcceptSingle;
    if frames == [] {
    } else {
      var front := frames[..|frames| - 1];
      BareTaken(s, front);
      assert Frames(Bare(front)) == front;
      assert Bare(frames)[..|frames| - 1] == Bare(front);
    }
  }

  lemma NoCountsAt()
    ensures MemoryCount([]) == 0 && NoTwins([])
  {
  }

  // ---------------------------------------------------------------- one step

  /** What was sent is accepted exactly under `fine`, and the stream agrees with the plugin again. */
  ghost predicate Follows(s: State, sent: seq<Sent>, fine: bool, k: Joint) {
    var t := C.Takes(s, Frames(sent));
    && (t.Some? <==> Apart(sent) && fine)
    && (t.Some? ==> Joined(t.value, k))
  }

  predicate Fine(e: Event) {
    e.Call? ==> C.Fine(e.act)
  }

  /** No started vCPU becomes unstarted. */
  lemma StepLives(r: C.Raw, e: C.Event, q: C.Raw)
    requires C.Step(r, e) == Some(q)
    ensures |q.vcpus| == |r.vcpus|
    ensures forall i :: 0 <= i < |r.vcpus| && r.vcpus[i].life != C.Unused ==> q.vcpus[i].life != C.Unused
  {
    C.StepWire(r, e, q);
    hide C.ActStep, C.Legal;
    C.ActLife(r.config, e.index, r.vcpus[e.index], e.act,
              C.ActStep(r.config, e.index, r.vcpus[e.index], e.act).value);
  }

  lemma {:induction false} RunLives(r: C.Raw, events: seq<C.Event>, q: C.Raw)
    requires C.RunEvents(r, events) == Some(q)
    ensures |q.vcpus| == |r.vcpus|
    ensures forall i :: 0 <= i < |r.vcpus| && r.vcpus[i].life != C.Unused ==> q.vcpus[i].life != C.Unused
  {
    hide C.Step;
    if events == [] {
    } else {
      var m := C.RunEvents(r, events[..|events| - 1]).value;
      RunLives(r, events[..|events| - 1], m);
      StepLives(m, events[|events| - 1], q);
    }
  }

  /** Capture callbacks touch no window. */
  lemma RunFollows(s: State, j: Joint, events: seq<C.Event>, q: C.Raw, p: A.Plugin)
    requires Joined(s, j) && C.RunEvents(j.raw, events) == Some(q)
    requires Windowed(p, s) && p.expected == j.plugin.expected && |p.active| == |j.plugin.active|
    ensures j.raw.wire <= q.wire && Follows(s, C.Since(j.raw, q), C.AllFine(events), With(p, q))
  {
    C.RunAccepted(s, j.raw, events, q);
    RunLives(j.raw, events, q);
    hide C.Tracks, C.RunEvents, C.AllFine, Configurable, MemorySent;
  }

  lemma CallFollows(s: State, j: Joint, e: C.Event, q: C.Raw, p: A.Plugin)
    requires Joined(s, j) && C.Step(j.raw, e) == Some(q)
    requires Windowed(p, s) && p.expected == j.plugin.expected && |p.active| == |j.plugin.active|
    ensures j.raw.wire <= q.wire && Follows(s, C.Since(j.raw, q), C.Fine(e.act), With(p, q))
  {
    hide C.Step, Joined, Windowed, Follows, C.Fine;
    RunLast(j.raw, [], e);
    assert [] + [e] == [e];
    RunFollows(s, j, [e], q, p);
    assert C.AllFine([e]) <==> C.Fine([e][0].act);
  }

  lemma ObserveWindowed(p: A.Plugin, s: State, e: A.Event, q: A.Plugin)
    requires Windowed(p, s) && A.StepPlugin(p, e) == A.Continued(q, [])
    requires e.Begin? || e.End? || e.Abort? || e.Observe?
    ensures Windowed(q, s) && q.expected == p.expected && q.active == p.active
  {
    hide Configurable;
  }

  lemma MarkShape(p: A.Plugin, e: A.Event)
    requires (e.Begin? || e.End? || e.Abort? || e.Observe?) && A.StepPlugin(p, e).Continued?
    ensures A.StepPlugin(p, e).frames == []
  {
  }

  lemma NothingFollowsYet(s: State, k: Joint)
    requires Joined(s, k)
    ensures Follows(s, [], true, k)
  {
    hide Joined;
    assert Frames([]) == [];
  }

  /** Only the windows have moved: the capture still agrees. */
  lemma WindowTracks(s: State, t: State, r: C.Raw, sent: seq<Sent>)
    requires C.Tracks(s, r) && t == s.(windows := t.windows)
    ensures C.Tracks(t, r.(wire := r.wire + sent))
  {
    hide C.CpuTracks;
    forall i | 0 <= i < |r.vcpus| ensures C.CpuTracks(r.config, t, i, r.vcpus[i]) {
      assert C.CpuTracks(r.config, s, i, r.vcpus[i]);
      C.SameSources(r.config, s, t, i, r.vcpus[i]);
    }
  }

  lemma MirrorsWindowed(p: A.Plugin, s: State, active: seq<bool>)
    requires A.Mirrors(p, s) && !s.features.contextFilter && |active| == |p.active|
    ensures Windowed(p.(active := active), s)
  {
    hide Configurable;
  }

  /** One part after the other. */
  lemma FollowsJoin(s: State, a: seq<Sent>, first: bool, m: Joint, b: seq<Sent>, second: bool, k: Joint)
    requires Follows(s, a, first, m)
    requires C.Takes(s, Frames(a)).Some? ==> Follows(C.Takes(s, Frames(a)).value, b, second, k)
    ensures Follows(s, a + b, first && second, k)
  {
    hide Joined, Frames, Apart, C.Takes;
    C.SentJoin(a, b);
    if C.Takes(s, Frames(a)).Some? {
      C.TakesJoin(s, Frames(a), Frames(b));
    } else {
      C.RefusedStays(s, Frames(a), Frames(b));
    }
  }

  lemma Whole(vcpus: seq<C.Vcpu>)
    ensures vcpus[..|vcpus|] == vcpus
  {
  }

  lemma NoLayout(s: State, j: Joint)
    requires Joined(s, j)
    ensures !j.raw.config.features.executableLayout && !s.features.contextFilter
  {
    hide C.CpuTracks, Configurable;
  }

  /** Flushing keeps the plugin as it is. */
  lemma FlushFollows(s: State, j: Joint) returns (r: C.Raw)
    requires Joined(s, j)
    ensures C.RunEvents(j.raw, Flushes(j.raw.vcpus)) == Some(r) && j.raw.wire <= r.wire
    ensures Follows(s, C.Since(j.raw, r), true, Joint(j.plugin, r))
    ensures |r.vcpus| == |j.raw.vcpus| && j.plugin.active == Lives(r.vcpus)
    ensures forall i :: 0 <= i < |r.vcpus| ==> r.vcpus[i].life == j.raw.vcpus[i].life
    ensures forall i :: 0 <= i < |r.vcpus| && r.vcpus[i].life == C.Active ==> r.vcpus[i].batch.items == []
  {
    NoLayout(s, j);
    Whole(j.raw.vcpus);
    r := FlushesRun(j.raw, |j.raw.vcpus|);
    JoinedParts(s, j);
    assert Lives(r.vcpus) == Lives(j.raw.vcpus);
    hide Joined, Windowed, Follows, C.RunEvents, Flushes;
    RunFollows(s, j, Flushes(j.raw.vcpus), r, j.plugin);
    assert With(j.plugin, r) == Joint(j.plugin, r);
  }

  lemma JoinedParts(s: State, j: Joint)
    requires Joined(s, j)
    ensures Windowed(j.plugin, s) && j.plugin.active == Lives(j.raw.vcpus) && C.Tracks(s, j.raw)
  {
  }

  /** Every drain of the plugin's own capture is accepted: its callbacks make the boundary ready. */
  lemma DrainFollows(s: State, j: Joint, closing: bool, k: Joint)
    requires Joined(s, j) && j.plugin.reducer.window < MAX64 && DrainStep(j, closing) == Some(k)
    ensures j.raw.wire <= k.raw.wire && Follows(s, C.Since(j.raw, k.raw), true, k)
  {
    hide Joined, Follows, C.RunEvents, Flushes, A.DrainStep;
    var r := FlushFollows(s, j);
    var step := A.DrainStep(j.plugin, closing);
    var a, b := C.Since(j.raw, r), Bare(step.frames);
    SinceBare(j.raw, r, k.raw, b);
    AllActive(j, closing);
    FollowsTaken(s, a, true, Joint(j.plugin, r));
    if C.Takes(s, Frames(a)).Some? { RequestFollows(C.Takes(s, Frames(a)).value, Joint(j.plugin, r), closing, k); }
    FollowsJoin(s, a, true, Joint(j.plugin, r), b, true, k);
  }

  lemma FollowsTaken(s: State, sent: seq<Sent>, fine: bool, k: Joint)
    requires Follows(s, sent, fine, k)
    ensures C.Takes(s, Frames(sent)).Some? ==> Joined(C.Takes(s, Frames(sent)).value, k)
  {
    hide Joined;
  }

  lemma AllActive(j: Joint, closing: bool)
    requires A.DrainStep(j.plugin, closing).Continued?
    ensures forall i :: 0 <= i < |j.plugin.active| ==> j.plugin.active[i]
  {
    hide A.Published', TotalObserved;
  }

  /** The window and the request, once everything is flushed. */
  lemma RequestFollows(s: State, j: Joint, closing: bool, k: Joint)
    requires Joined(s, j) && j.plugin.reducer.window < MAX64 && A.DrainStep(j.plugin, closing).Continued?
    requires forall i :: 0 <= i < |j.raw.vcpus| ==> j.raw.vcpus[i].life == C.Active && j.raw.vcpus[i].batch.items == []
    requires var step := A.DrainStep(j.plugin, closing);
      k == With(step.next, j.raw.(wire := j.raw.wire + Bare(step.frames)))
    ensures Follows(s, Bare(A.DrainStep(j.plugin, closing).frames), true, k)
  {
    var step := A.DrainStep(j.plugin, closing);
    JoinedMirrors(s, j);
    JoinedParts(s, j);
    NoLayout(s, j);
    DrainUnmixed(j.plugin, closing);
    hide Joined, A.DrainStep, A.Mirrors, AcceptSingles, Windowed, C.Tracks, Follows, With, Unmixed;
    FlushedReady(s, j.raw);
    A.DrainMirrors(j.plugin, s, closing);
    DrainJoins(s, j, step.next, step.frames, k);
  }

  /** Accepted window frames leave everything joined when no vCPU is unstarted. */
  lemma DrainJoins(s: State, j: Joint, p: A.Plugin, frames: seq<Frame>, k: Joint)
    requires Unmixed(frames) && C.Tracks(s, j.raw) && AcceptSingles(s, frames).Some? && |p.active| == |j.raw.vcpus|
    requires var t := AcceptSingles(s, frames).value;
      A.Mirrors(p, t) && t == s.(windows := t.windows) && !t.features.contextFilter
    requires forall i :: 0 <= i < |j.raw.vcpus| ==> j.raw.vcpus[i].life != C.Unused
    requires k == With(p, j.raw.(wire := j.raw.wire + Bare(frames)))
    ensures Follows(s, Bare(frames), true, k)
  {
    hide Joined, A.Mirrors, AcceptSingles, Windowed, C.Tracks, Unmixed, Frames, Bare, Apart, MemorySent;
    BareTaken(s, frames);
    var t := AcceptSingles(s, frames).value;
    WindowTracks(s, t, j.raw, Bare(frames));
    MirrorsWindowed(p, t, Lives(k.raw.vcpus));
    AllStarted(k, t);
  }

  lemma AllStarted(k: Joint, s: State)
    requires C.Tracks(s, k.raw) && Windowed(k.plugin, s) && k.plugin.active == Lives(k.raw.vcpus)
    requires forall i :: 0 <= i < |k.raw.vcpus| ==> k.raw.vcpus[i].life != C.Unused
    ensures Joined(s, k)
  {
    hide C.Tracks, Windowed;
  }

  lemma DrainUnmixed(p: A.Plugin, closing: bool)
    requires A.DrainStep(p, closing).Continued?
    ensures Unmixed(A.DrainStep(p, closing).frames) && |A.DrainStep(p, closing).next.active| == |p.active|
  {
    hide A.Published', TotalObserved;
  }

  lemma StepFollows(s: State, j: Joint, e: Event, k: Joint)
    requires Joined(s, j) && j.plugin.reducer.window < MAX64 && Step(j, e) == Some(k)
    ensures j.raw.wire <= k.raw.wire && Follows(s, C.Since(j.raw, k.raw), Fine(e), k)
  {
    hide Joined, Follows, C.Step, A.StepPlugin, DrainStep, C.Fine;
    JoinedParts(s, j);
    hide C.Tracks, Windowed;
    match e
    case Call(index, act) => CallFollows(s, j, C.Event(index, act), k.raw, j.plugin);
    case Block(index, act) =>
      var step := A.StepPlugin(j.plugin, A.Observe(index, act.pc));
      MarkShape(j.plugin, A.Observe(index, act.pc));
      ObserveWindowed(j.plugin, s, A.Observe(index, act.pc), step.next);
      CallFollows(s, j, C.Event(index, act), k.raw, step.next);
      assert C.Fine(act) by { EnterFine(act); }
    case Mark(marker) =>
      MarkShape(j.plugin, marker);
      ObserveWindowed(j.plugin, s, marker, A.StepPlugin(j.plugin, marker).next);
      assert k.plugin == A.StepPlugin(j.plugin, marker).next;
      MarkJoined(s, j, k);
      NothingFollowsYet(s, k);
    case Drain(closing) => DrainFollows(s, j, closing, k);
  }

  lemma EnterFine(act: C.Act)
    requires act.Enter?
    ensures C.Fine(act)
  {
  }

  lemma MarkJoined(s: State, j: Joint, k: Joint)
    requires Joined(s, j) && Windowed(k.plugin, s) && k.raw == j.raw && k.plugin.active == j.plugin.active
    requires k.plugin.expected == j.plugin.expected
    ensures Joined(s, k) && C.Since(j.raw, k.raw) == []
  {
    hide C.Tracks, Windowed;
  }

  // ---------------------------------------------------------------- whole runs

  predicate AllFine(events: seq<Event>) {
    forall i :: 0 <= i < |events| ==> Fine(events[i])
  }

  lemma StepWindow(j: Joint, e: Event, k: Joint)
    requires Step(j, e) == Some(k)
    ensures j.plugin.reducer.window <= k.plugin.reducer.window
  {
    hide C.Step, C.RunEvents, A.StepPlugin;
    match e
    case Call(_, _) =>
    case Block(index, act) => A.StepSized(j.plugin, A.Observe(index, act.pc));
    case Mark(marker) => A.StepSized(j.plugin, marker);
    case Drain(closing) => DrainWindow(j.plugin, closing);
  }

  lemma DrainWindow(p: A.Plugin, closing: bool)
    ensures var r := A.DrainStep(p, closing); r.Continued? ==> p.reducer.window == r.next.reducer.window
  {
    hide A.Published', TotalObserved;
  }

  /**
   * Every run of callbacks, windows and drains, legacy or mixed: accepted exactly when
   * names are printable and no frame holds two neighbouring contexts. No condition on
   * the stream is left: the plugin's own callbacks make every boundary ready.
   */
  lemma {:induction false} RunAccepted(s: State, j: Joint, events: seq<Event>, k: Joint)
    requires Joined(s, j) && RunEvents(j, events) == Some(k) && k.plugin.reducer.window < MAX64
    ensures j.raw.wire <= k.raw.wire && Follows(s, C.Since(j.raw, k.raw), AllFine(events), k)
  {
    hide Joined, Follows, Step, Fine;
    if events == [] {
      NothingFollowsYet(s, k);
      assert C.Since(j.raw, k.raw) == [];
    } else {
      var front, e := events[..|events| - 1], events[|events| - 1];
      var m := RunEvents(j, front).value;
      StepWindow(m, e, k);
      RunAccepted(s, j, front, m);
      var a := C.Since(j.raw, m.raw);
      FollowsTaken(s, a, AllFine(front), m);
      StepGrows(m, e, k);
      if C.Takes(s, Frames(a)).Some? { StepFollows(C.Takes(s, Frames(a)).value, m, e, k); }
      C.SinceJoin(j.raw, m.raw, k.raw);
      FollowsJoin(s, a, AllFine(front), m, C.Since(m.raw, k.raw), Fine(e), k);
      assert AllFine(events) <==> AllFine(front) && Fine(e) by { FineLast(events); }
    }
  }

  lemma FineLast(events: seq<Event>)
    requires events != []
    ensures AllFine(events) <==> AllFine(events[..|events| - 1]) && Fine(events[|events| - 1])
  {
    hide Fine;
    var front := events[..|events| - 1];
    if AllFine(events) {
      forall i | 0 <= i < |front| ensures Fine(front[i]) { assert front[i] == events[i]; }
    }
  }

  lemma StepGrows(j: Joint, e: Event, k: Joint)
    requires Step(j, e) == Some(k)
    ensures j.raw.wire <= k.raw.wire
  {
    hide C.Step, C.RunEvents, A.StepPlugin, A.DrainStep, Flushes;
    match e
    case Call(index, act) => C.StepWire(j.raw, C.Event(index, act), k.raw);
    case Block(index, act) => C.StepWire(j.raw, C.Event(index, act), k.raw);
    case Mark(_) =>
    case Drain(closing) => C.RunWire(j.raw, Flushes(j.raw.vcpus));
  }

  // ---------------------------------------------------------------- the exit

  /** No window is open, or every vCPU with rows in it is still there. */
  predicate ExitLive(j: Joint) {
    j.plugin.reducer.phase == Idle ||
    forall i :: 0 <= i < |j.plugin.reducer.blocks| && i < |j.raw.vcpus| && F.SourceRows(j.plugin.reducer, i) != [] ==>
      j.raw.vcpus[i].life != C.Gone
  }

  /** The window published at exit. */
  lemma LastWindowFollows(s: State, j: Joint, k: Joint)
    requires Joined(s, j) && j.plugin.reducer.window < MAX64 && A.FinishStep(j.plugin).Continued?
    requires var step := A.FinishStep(j.plugin);
      k == With(step.next, j.raw.(wire := j.raw.wire + Bare(step.frames)))
    ensures Follows(s, Bare(A.FinishStep(j.plugin).frames), ExitLive(j), k)
    ensures !k.plugin.expected
  {
    var step := A.FinishStep(j.plugin);
    JoinedMirrors(s, j);
    JoinedParts(s, j);
    NoLayout(s, j);
    FinishShape(j.plugin);
    ExitMeans(s, j);
    StartedStays(s, j);
    hide Joined, A.FinishStep, A.Mirrors, AcceptSingles, Windowed, C.Tracks, A.Published', ExitLive, W.RowSourcesLive;
    BareTaken(s, step.frames);
    A.PublishMirrors(j.plugin, s);
    if AcceptSingles(s, step.frames).Some? {
      var t := AcceptSingles(s, step.frames).value;
      WindowTracks(s, t, j.raw, Bare(step.frames));
      MirrorsWindowed(step.next, t, Lives(k.raw.vcpus));
      ExitJoined(s, j, t, k);
    }
  }

  lemma FinishShape(p: A.Plugin)
    requires A.FinishStep(p).Continued?
    ensures A.FinishStep(p) == A.Continued(p.(reducer := p.reducer.(phase := Idle), expected := false),
                                           A.Published'(p.reducer))
    ensures Unmixed(A.FinishStep(p).frames) && (p.reducer.phase != Idle) == p.expected
    ensures p.reducer.phase != Idle ==> TotalObserved(p.reducer.blocks) <= MAX64
  {
    hide A.Published', TotalObserved;
  }

  lemma ExitMeans(s: State, j: Joint)
    requires Joined(s, j)
    ensures |j.plugin.reducer.blocks| == |j.raw.vcpus| <= MAX_SOURCES
    ensures ExitLive(j) <==> j.plugin.reducer.phase == Idle || W.RowSourcesLive(s, j.plugin.reducer)
  {
    JoinedMirrors(s, j);
    hide C.Tracks, F.SourceRows, A.Mirrors, Configurable;
  }

  lemma StartedStays(s: State, j: Joint)
    requires Joined(s, j)
    ensures Started(j, s)
  {
  }

  lemma ExitJoined(s: State, j: Joint, t: State, k: Joint)
    requires Started(j, s) && C.Tracks(t, k.raw) && Windowed(k.plugin, t) && k.plugin.active == Lives(k.raw.vcpus)
    requires k.raw.vcpus == j.raw.vcpus && !k.plugin.expected
    requires t.windows.sources != 0 ==> s.windows.sources != 0 || j.plugin.expected
    ensures Joined(t, k)
  {
    hide C.Tracks, Windowed;
  }

  /** The whole exit: accepted exactly when no vCPU with rows in the open window has ended before. */
  lemma FinishedFollows(s: State, j: Joint, k: Joint)
    requires Joined(s, j) && j.plugin.reducer.window < MAX64 && Finished(j) == Some(k)
    ensures j.raw.wire <= k.raw.wire && Follows(s, C.Since(j.raw, k.raw), ExitLive(j), k) && Over(k)
  {
    NoLayout(s, j);
    hide Joined, Follows, C.RunEvents, Flushes, A.FinishStep, ExitLive, Ends;
    var r := FlushFollows(s, j);
    var step := A.FinishStep(j.plugin);
    var n := With(step.next, r.(wire := r.wire + Bare(step.frames)));
    LastDrainFollows(s, j, r, n);
    FlushConfig(j.raw, r);
    EndsFollow(s, j, n, ExitLive(j), k);
    NoExpectation(j.plugin);
  }

  lemma FlushConfig(r: C.Raw, q: C.Raw)
    requires C.RunEvents(r, Flushes(r.vcpus)) == Some(q)
    ensures q.config == r.config
  {
    hide C.RunEvents;
    C.RunWire(r, Flushes(r.vcpus));
  }

  /** The raw tails and the window. */
  lemma LastDrainFollows(s: State, j: Joint, r: C.Raw, n: Joint)
    requires Joined(s, j) && j.plugin.reducer.window < MAX64 && A.FinishStep(j.plugin).Continued?
    requires j.raw.wire <= r.wire && Follows(s, C.Since(j.raw, r), true, Joint(j.plugin, r))
    requires |r.vcpus| == |j.raw.vcpus|
    requires forall i :: 0 <= i < |r.vcpus| ==> r.vcpus[i].life == j.raw.vcpus[i].life
    requires var step := A.FinishStep(j.plugin); n == With(step.next, r.(wire := r.wire + Bare(step.frames)))
    ensures j.raw.wire <= n.raw.wire && Follows(s, C.Since(j.raw, n.raw), ExitLive(j), n)
  {
    hide Joined, Follows, A.FinishStep, ExitLive, C.Takes, C.Since, Frames, Bare;
    var m, a, b := Joint(j.plugin, r), C.Since(j.raw, r), Bare(A.FinishStep(j.plugin).frames);
    SinceBare(j.raw, r, n.raw, b);
    FollowsTaken(s, a, true, m);
    if C.Takes(s, Frames(a)).Some? { LastWindowFollows(C.Takes(s, Frames(a)).value, m, n); }
    FollowsJoin(s, a, true, m, b, ExitLive(m), n);
    SameExit(j, m);
  }

  lemma SinceBare(p: C.Raw, q: C.Raw, r: C.Raw, b: seq<Sent>)
    requires p.wire <= q.wire && r.wire == q.wire + b
    ensures p.wire <= r.wire && C.Since(p, r) == C.Since(p, q) + b
  {
  }

  lemma NoExpectation(p: A.Plugin)
    ensures A.FinishStep(p).Continued? ==> !A.FinishStep(p).next.expected
  {
    hide A.Published', TotalObserved;
  }

  lemma SameExit(j: Joint, m: Joint)
    requires m.plugin == j.plugin && |m.raw.vcpus| == |j.raw.vcpus|
    requires forall i :: 0 <= i < |m.raw.vcpus| ==> m.raw.vcpus[i].life == j.raw.vcpus[i].life
    ensures ExitLive(m) <==> ExitLive(j)
  {
    hide F.SourceRows;
  }

  /** Nothing is left to send. */
  predicate Over(k: Joint) {
    !k.plugin.expected && forall i :: 0 <= i < |k.raw.vcpus| ==> k.raw.vcpus[i].life != C.Active
  }

  /** The terminators of the vCPUs that are still active. */
  lemma EndsFollow(s: State, j: Joint, n: Joint, live: bool, k: Joint)
    requires j.raw.wire <= n.raw.wire && Follows(s, C.Since(j.raw, n.raw), live, n)
    requires n.plugin.active == Lives(n.raw.vcpus) && !n.raw.config.features.executableLayout
    requires C.RunEvents(n.raw, Ends(n.raw.vcpus)) == Some(k.raw) && k == With(n.plugin, k.raw)
    ensures j.raw.wire <= k.raw.wire && Follows(s, C.Since(j.raw, k.raw), live, k)
    ensures forall i :: 0 <= i < |k.raw.vcpus| ==> k.raw.vcpus[i].life != C.Active
  {
    Whole(n.raw.vcpus);
    var q := EndsRun(n.raw, |n.raw.vcpus|);
    hide Follows, Joined, C.RunEvents, Ends, Windowed, C.Tracks;
    var a := C.Since(j.raw, n.raw);
    C.RunWire(n.raw, Ends(n.raw.vcpus));
    FollowsTaken(s, a, live, n);
    if C.Takes(s, Frames(a)).Some? {
      var t := C.Takes(s, Frames(a)).value;
      JoinedParts(t, n);
      RunFollows(t, n, Ends(n.raw.vcpus), k.raw, n.plugin);
    }
    C.SinceJoin(j.raw, n.raw, k.raw);
    FollowsJoin(s, a, live, n, C.Since(n.raw, k.raw), true, k);
  }

  /** After the exit Complete is accepted. */
  lemma CompleteFollows(s: State, k: Joint)
    requires Joined(s, k) && Over(k)
    ensures Accept(s, T.COMPLETE) == Some(s.(finished := true))
  {
    JoinedMirrors(s, k);
    NoLayout(s, k);
    Reported(s, k);
    JoinedParts(s, k);
    T.AllEnded(s, k.raw);
    hide Joined, C.Tracks, A.Mirrors, AcceptSingle, AllSeenEnded;
    Dispatch(s, T.COMPLETE.header, []);
  }

  /** Every vCPU a window summary counted has ended. */
  lemma Reported(s: State, k: Joint)
    requires Joined(s, k) && Over(k)
    ensures forall i :: 0 <= i < s.windows.sources ==> i < MAX_SOURCES && s.sources[i].ended
    ensures !s.features.observationReduction && !s.windows.expected && !s.windows.rows && !s.features.contextFilter
  {
    JoinedMirrors(s, k);
    hide C.CpuTracks, A.Mirrors, Configurable;
    forall i | 0 <= i < s.windows.sources ensures i < MAX_SOURCES && s.sources[i].ended {
      assert k.raw.vcpus[i].life != C.Unused && k.raw.vcpus[i].life != C.Active;
    }
  }

  // ---------------------------------------------------------------- from Hello to Complete

  predicate Fresh(j: Joint) {
    && j.raw.wire == [] && !j.raw.laid && (forall i :: 0 <= i < |j.raw.vcpus| ==> j.raw.vcpus[i] == C.FRESH)
    && j.plugin.reducer.phase == Idle && j.plugin.reducer.window == 0 && !j.plugin.expected
    && Configurable(|j.plugin.reducer.blocks|, j.plugin.reducer.capacity)
    && |j.plugin.reducer.blocks| == |j.raw.vcpus| && j.plugin.active == Lives(j.raw.vcpus)
  }

  lemma StartJoined(h: Header, j: Joint)
    requires h.kind == Hello && LegalHeader(h) && h.version == VERSION && j.raw.config.features == FeaturesOf(h.detail)
    requires C.ConfigOk(j.raw.config, |j.raw.vcpus|) && Fresh(j)
    requires var f := j.raw.config.features; f.kernel && f.transitionWindows && !f.contextFilter
    ensures Joined(T.Greeted(h), j)
  {
    T.StartTracks(h, j.raw);
    hide C.Tracks, LegalHeader, FeaturesOf, Configurable;
  }

  /**
   * A whole interactive capture, from Hello through any callbacks, windows and drains
   * to the exit and Complete: accepted exactly when names are printable, no frame
   * holds neighbouring contexts, and no vCPU with rows in the last window has ended
   * before the exit.
   */
  lemma ActionCaptureAccepted(h: Header, j: Joint, events: seq<Event>, m: Joint, k: Joint)
    requires h.kind == Hello && LegalHeader(h) && h.version == VERSION && j.raw.config.features == FeaturesOf(h.detail)
    requires C.ConfigOk(j.raw.config, |j.raw.vcpus|) && Fresh(j)
    requires var f := j.raw.config.features; f.kernel && f.transitionWindows && !f.contextFilter
    requires RunEvents(j, events) == Some(m) && m.plugin.reducer.window < MAX64 && Finished(m) == Some(k)
    ensures Accept(Initial(), Frame(h, [])) == Some(T.Greeted(h))
    ensures var t := C.Takes(T.Greeted(h), Frames(k.raw.wire));
      && (t.Some? <==> Apart(k.raw.wire) && AllFine(events) && ExitLive(m))
      && (t.Some? ==> Accept(t.value, T.COMPLETE).Some?)
  {
    T.HelloGreets(h);
    StartJoined(h, j);
    hide LegalHeader, FeaturesOf, T.Greeted, Accept, C.ConfigOk, RunEvents, Finished, Joined, ExitLive, AllFine, Over;
    var s := T.Greeted(h);
    RunAccepted(s, j, events, m);
    var a := C.Since(j.raw, m.raw);
    FollowsTaken(s, a, AllFine(events), m);
    FinishedGrows(m, k);
    if C.Takes(s, Frames(a)).Some? { FinishedFollows(C.Takes(s, Frames(a)).value, m, k); }
    FollowsJoin(s, a, AllFine(events), m, C.Since(m.raw, k.raw), ExitLive(m), k);
    C.SinceJoin(j.raw, m.raw, k.raw);
    assert C.Since(j.raw, k.raw) == k.raw.wire;
    FollowsTaken(s, k.raw.wire, AllFine(events) && ExitLive(m), k);
    var t := C.Takes(s, Frames(k.raw.wire));
    if t.Some? { CompleteFollows(t.value, k); }
  }

  lemma FinishedGrows(j: Joint, k: Joint)
    requires Finished(j) == Some(k)
    ensures j.raw.wire <= k.raw.wire
  {
    hide C.RunEvents, A.FinishStep, Flushes, Ends;
    var r := C.RunEvents(j.raw, Flushes(j.raw.vcpus)).value;
    C.RunWire(j.raw, Flushes(j.raw.vcpus));
    var q := r.(wire := r.wire + Bare(A.FinishStep(j.plugin).frames));
    C.RunWire(q, Ends(q.vcpus));
  }

  // ---------------------------------------------------------------- block rows

  lemma CalmBare(r: C.Raw, frames: seq<Frame>)
    requires X.AllCalm(r)
    ensures X.AllCalm(r.(wire := r.wire + Bare(frames)))
  {
    NoCountsAt();
    hide NoTwins, X.Counted, X.EndsInContext;
  }

  /** With block rows on, nothing that is sent has neighbouring contexts. */
  lemma {:induction false} BlocksStayCalm(j: Joint, events: seq<Event>, k: Joint)
    requires j.raw.config.blocks && X.AllCalm(j.raw) && RunEvents(j, events) == Some(k)
    ensures k.raw.config.blocks && X.AllCalm(k.raw)
  {
    hide Step, X.AllCalm;
    if events == [] {
    } else {
      var m := RunEvents(j, events[..|events| - 1]).value;
      BlocksStayCalm(j, events[..|events| - 1], m);
      StepCalm(m, events[|events| - 1], k);
    }
  }

  lemma StepCalm(j: Joint, e: Event, k: Joint)
    requires j.raw.config.blocks && X.AllCalm(j.raw) && Step(j, e) == Some(k)
    ensures k.raw.config.blocks && X.AllCalm(k.raw)
  {
    hide X.AllCalm, C.Step, C.RunEvents, A.StepPlugin, A.DrainStep, Flushes;
    match e
    case Call(index, act) => X.CalmStep(j.raw, C.Event(index, act), k.raw);
    case Block(index, act) => X.CalmStep(j.raw, C.Event(index, act), k.raw);
    case Mark(_) =>
    case Drain(closing) =>
      var r := C.RunEvents(j.raw, Flushes(j.raw.vcpus)).value;
      X.CalmRun(j.raw, Flushes(j.raw.vcpus), r);
      CalmBare(r, A.DrainStep(j.plugin, closing).frames);
  }

  /** With block rows, a whole interactive capture stands or falls with its names and its exit. */
  lemma BlocksAccepted(h: Header, j: Joint, events: seq<Event>, m: Joint, k: Joint)
    requires h.kind == Hello && LegalHeader(h) && h.version == VERSION && j.raw.config.features == FeaturesOf(h.detail)
    requires C.ConfigOk(j.raw.config, |j.raw.vcpus|) && Fresh(j) && j.raw.config.blocks
    requires var f := j.raw.config.features; f.kernel && f.transitionWindows && !f.contextFilter
    requires RunEvents(j, events) == Some(m) && m.plugin.reducer.window < MAX64 && Finished(m) == Some(k)
    ensures C.Takes(T.Greeted(h), Frames(k.raw.wire)).Some? <==> AllFine(events) && ExitLive(m)
  {
    ActionCaptureAccepted(h, j, events, m, k);
    hide LegalHeader, FeaturesOf, T.Greeted, C.ConfigOk, RunEvents, C.RunEvents, Flushes, Ends, A.FinishStep, AllFine,
      ExitLive, X.AllCalm, Configurable;
    T.StartCalm(j.raw);
    BlocksStayCalm(j, events, m);
    var r := C.RunEvents(m.raw, Flushes(m.raw.vcpus)).value;
    X.CalmRun(m.raw, Flushes(m.raw.vcpus), r);
    CalmBare(r, A.FinishStep(m.plugin).frames);
    var q := r.(wire := r.wire + Bare(A.FinishStep(m.plugin).frames));
    X.CalmRun(q, Ends(q.vcpus), k.raw);
    X.CalmWire(k.raw);
  }
}
