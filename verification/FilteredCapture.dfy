/**
Filtered capture end to end: the context filter's books and the rows the capture
callbacks append, run together. The kept count of the summary is exactly the
number of memory rows the stream accepted, and the summary and Complete follow.
*/
module FilteredCapture {
  import opened Words
  import opened Wire
  import opened Validator
  import opened ValidatorRuns
  import opened RowBatches
  import opened RowAcceptance
  import opened CaptureRows
  import opened RowStreams
  import C = RawCapture
  import X = ContextCrowding
  import T = RawTraces
  import Contexts
  import opened RegisterSchemas
  import opened ContextFilters
  import F = FilterRuns

  /** The filter's machine and the capture's, side by side. */
  datatype Joint = Joint(machine: F.Machine, raw: C.Raw)

  /** A filter step with the capture callback that belongs to it, or an idle flush. */
  datatype Event = Both(filter: F.Event, act: Option<C.Act>) | Idle(source: nat)

  /** Whether a filter step records a block: a running block, or the gate block once its latch is stored. */
  predicate Records(m: F.Machine, e: F.Event)
    requires e.source < |m.vcpus|
  {
    (e.Block? && m.running) || (e.Advance? && m.vcpus[e.source].stage.Stored?)
  }

  /** Which capture callback goes with a filter step. */
  predicate Coupled(m: F.Machine, e: F.Event, n: F.Machine, act: Option<C.Act>)
    requires e.source < |m.vcpus| == |n.vcpus|
  {
    var v := m.vcpus[e.source];
    if e.Start? then act.Some? && act.value.Start?
    else if Records(m, e) then
      act.Some? && act.value.Enter? && act.value.rich == n.vcpus[e.source].admission &&
      act.value.context.cr3 == (if e.Block? then e.cr3 else v.stage.cr3)
    else if e.Access? && v.admission && v.recording then act.Some? && act.value.Touch?
    else if e.Exit? then act.Some? && act.value.Exit?
    else act == None
  }

  function Step(j: Joint, e: Event): Option<Joint> {
    match e
    case Idle(source) =>
      (match C.Step(j.raw, C.Event(source, C.Flush)) case None => None case Some(r) => Some(Joint(j.machine, r)))
    case Both(f, act) =>
      match F.Step(j.machine, f)
      case None => None
      case Some(n) =>
        if f.source >= |j.machine.vcpus| || |n.vcpus| != |j.machine.vcpus| || !Coupled(j.machine, f, n, act) then None
        else if act.None? then Some(Joint(n, j.raw))
        else
          match C.Step(j.raw, C.Event(f.source, act.value)) case None => None case Some(r) => Some(Joint(n, r))
  }

  function RunEvents(j: Joint, events: seq<Event>): Option<Joint> {
    if events == [] then Some(j)
    else
      match RunEvents(j, events[..|events| - 1])
      case None => None
      case Some(m) => Step(m, events[|events| - 1])
  }

  /** The two halves of a joint run. */
  function FilterEvents(events: seq<Event>): seq<F.Event> {
    if events == [] then []
    else
      var last := events[|events| - 1];
      FilterEvents(events[..|events| - 1]) + if last.Both? then [last.filter] else []
  }

  function RawEvents(events: seq<Event>): seq<C.Event> {
    if events == [] then []
    else
      var last := events[|events| - 1];
      RawEvents(events[..|events| - 1]) +
      match last
      case Idle(source) => [C.Event(source, C.Flush)]
      case Both(f, act) => if act.Some? then [C.Event(f.source, act.value)] else []
  }

  lemma {:induction false} Halves(j: Joint, events: seq<Event>)
    requires RunEvents(j, events).Some?
    ensures F.RunEvents(j.machine, FilterEvents(events)) == Some(RunEvents(j, events).value.machine)
    ensures C.RunEvents(j.raw, RawEvents(events)) == Some(RunEvents(j, events).value.raw)
  {
    hide F.Step, C.Step, Coupled;
    if events == [] {
    } else {
      var front, last := events[..|events| - 1], events[|events| - 1];
      Halves(j, front);
      var fs, rs := FilterEvents(front), RawEvents(front);
      if last.Both? {
        assert (fs + [last.filter])[..|fs|] == fs;
        if last.act.Some? {
          RawLast(j.raw, rs, C.Event(last.filter.source, last.act.value));
        } else {
          assert rs + [] == rs;
        }
      } else {
        assert fs + [] == fs;
        RawLast(j.raw, rs, C.Event(last.source, C.Flush));
      }
    }
  }

  lemma RawLast(r: C.Raw, events: seq<C.Event>, e: C.Event)
    requires C.RunEvents(r, events).Some?
    ensures C.RunEvents(r, events + [e]) == C.Step(C.RunEvents(r, events).value, e)
  {
    hide C.Step;
    assert (events + [e])[..|events|] == events;
  }

  // ---------------------------------------------------------------- rows are conserved

  /** Memory rows appended so far by one vCPU's step: sent or still buffered. */
  function Memories(o: C.Out): nat {
    MemorySent(o.sent) + MemoryCount(o.v.batch.items)
  }

  predicate Countable(o: C.Out) {
    |o.v.batch.items| <= o.v.batch.next
  }

  lemma DrainedRows(index: nat, b: Batch, sent: seq<Sent>)
    requires b.kind == RegisterSchema || |b.items| <= b.next
    ensures MemorySent(sent + Drained(index, b)) == MemorySent(sent) + MemoryCount(b.items)
  {
    hide BatchFrame;
    if b.items == [] {
      assert sent + [] == sent;
    } else {
      hide MemoryCount;
      SentAppend(sent, Sent(BatchFrame(index, b), b.items));
    }
  }

  lemma CountAppend(items: seq<Item>, x: Item)
    ensures MemoryCount(items + [x]) == MemoryCount(items) + if x.kind == Memory then 1 else 0
  {
    assert (items + [x])[..|items|] == items;
  }

  lemma PutRows(c: C.Config, index: nat, o: C.Out, x: Item, p: C.Out)
    requires Countable(o) && C.Put(c, index, o, x) == Some(p) && x.kind != RegisterSchema
    ensures Countable(p) && Memories(p) == Memories(o) + if x.kind == Memory then 1 else 0
  {
    hide MemoryCount, MemorySent, Joins, Drained;
    CountAppend(o.v.batch.items, x);
    CountAppend([], x);
    C.NoCounts();
    DrainedRows(index, o.v.batch, o.sent);
    assert o.sent + [] == o.sent;
  }

  lemma FlushRows(index: nat, o: C.Out)
    requires Countable(o)
    ensures Countable(C.FlushOut(index, o)) && Memories(C.FlushOut(index, o)) == Memories(o)
  {
    hide MemoryCount, MemorySent, Drained;
    DrainedRows(index, o.v.batch, o.sent);
    C.NoCounts();
  }

  lemma ContextRows(c: C.Config, index: nat, o: C.Out, pc: u64, context: Contexts.Context, p: C.Out)
    requires Countable(o) && C.PutContext(c, index, o, pc, context) == Some(p)
    ensures Countable(p) && Memories(p) == Memories(o)
  {
    hide MemoryCount, MemorySent, C.Put, ContextRow;
    var x := ContextRow(pc, context, c.known);
    C.ContextKind(pc, context, c.known);
    if c.features.addressContext &&
      o.v.context != Some(context) { PutRows(c, index, o, x, C.Put(c, index, o, x).value); }
  }

  lemma {:induction false} RegistersRows(c: C.Config, index: nat, o: C.Out, pc: u64, checkpoint: nat,
                                         values: seq<seq<byte>>, n: nat, p: C.Out)
    requires n <= |values| == |o.v.previous| && Countable(o)
    requires C.PutRegisters(c, index, o, pc, checkpoint, values, n) == Some(p)
    ensures Countable(p) && Memories(p) == Memories(o)
    decreases n
  {
    hide MemoryCount, MemorySent, C.Put, RegisterRow;
    if n == 0 {
    } else {
      var m := C.PutRegisters(c, index, o, pc, checkpoint, values, n - 1).value;
      RegistersRows(c, index, o, pc, checkpoint, values, n - 1, m);
      if m.v.previous[n - 1] != Some(values[n - 1]) {
        var x := RegisterRow(pc, n - 1, checkpoint, m.v.previous[n - 1].None?, values[n - 1]);
        C.RegisterKind(pc, n - 1, checkpoint, m.v.previous[n - 1].None?, values[n - 1]);
        PutRows(c, index, m, x, C.Put(c, index, m, x).value);
      }
    }
  }

  lemma SampleRows(c: C.Config, index: nat, o: C.Out, pc: u64, checkpoint: nat, values: seq<seq<byte>>, p: C.Out)
    requires Countable(o) && C.SampleAll(c, index, o, pc, checkpoint, values) == Some(p)
    ensures Countable(p) && Memories(p) == Memories(o)
  {
    hide Countable, Memories, C.PutRegisters;
    RegistersRows(c, index, o, pc, checkpoint, values, |values|, p);
  }

  lemma EnterRows(c: C.Config, index: nat, v: C.Vcpu, act: C.Act, o: C.Out)
    requires Countable(C.Out(v, [])) && act.Enter? && C.EnterStep(c, index, v, act) == Some(o)
    ensures Countable(o) && Memories(o) == Memories(C.Out(v, []))
  {
    hide MemoryCount, MemorySent, C.PutContext, C.SampleAll, C.Put, C.FlushOut;
    var p := C.PutContext(c, index, C.Out(v, []), act.pc, act.context).value;
    ContextRows(c, index, C.Out(v, []), act.pc, act.context, p);
    var q := p;
    if act.rich {
      q := C.SampleAll(c, index, p, act.pc, 1, act.values).value;
      SampleRows(c, index, p, act.pc, 1, act.values, q);
    }
    if c.blocks {
      var m := C.Put(c, index, q, BlockRow(act.pc)).value;
      PutRows(c, index, q, BlockRow(act.pc), m);
      FlushRows(index, m);
    }
  }

  lemma TouchRows(c: C.Config, index: nat, v: C.Vcpu, act: C.Act, o: C.Out)
    requires Countable(C.Out(v, [])) && act.Touch? && C.TouchStep(c, index, v, act) == Some(o)
    ensures Countable(o) && Memories(o) == Memories(C.Out(v, [])) + 1
  {
    hide MemoryCount, MemorySent, C.PutContext, C.Put;
    var p := C.Out(v, []);
    if !c.features.contextFilter {
      p := C.PutContext(c, index, C.Out(v, []), act.access.pc, act.context).value;
      ContextRows(c, index, C.Out(v, []), act.access.pc, act.context, p);
    }
    PutRows(c, index, p, MemoryRow(c.features, act.access, p.v.contextSequence), o);
  }

  lemma ExitRowsKept(c: C.Config, index: nat, v: C.Vcpu, act: C.Act, o: C.Out)
    requires Countable(C.Out(v, [])) && act.Exit? && C.ActStep(c, index, v, act) == Some(o)
    ensures Countable(o) && Memories(o) == Memories(C.Out(v, []))
  {
    hide MemoryCount, MemorySent, C.PutContext, C.SampleAll, C.FlushOut, C.EndFrame;
    var p := C.ExitRows(c, index, v, act).value;
    if act.sample {
      var q := C.PutContext(c, index, C.Out(v, []), act.pc, act.context).value;
      ContextRows(c, index, C.Out(v, []), act.pc, act.context, q);
      if act.rich { SampleRows(c, index, q, act.pc, 3, act.values, p); }
    }
    FlushRows(index, p);
    var f := C.FlushOut(index, p);
    SentAppend(f.sent, Sent(C.EndFrame(index, f.v.batch.next), []));
    C.NoCounts();
  }

  lemma {:induction false} SchemasKept(f: Features, index: nat, b: Batch, ds: seq<Declared>, n: nat)
    requires Admissible(ds) && n <= |ds| && |b.items| <= b.next
    ensures var p := PutSchemas(f, index, b, ds, n);
      && (p.batch.kind == RegisterSchema || |p.batch.items| <= p.batch.next)
      && MemorySent(p.sent) + MemoryCount(p.batch.items) == MemoryCount(b.items)
  {
    hide MemoryCount, MemorySent, Joins, Drained, SchemaRow, Admissible;
    if n == 0 {
      assert MemorySent([]) == 0 by { NoneSent(); }
    } else {
      SchemasKept(f, index, b, ds, n - 1);
      RowSize(ds, n - 1);
      var p, x := PutSchemas(f, index, b, ds, n - 1), SchemaRow(n - 1, ds[n - 1]);
      CountAppend(p.batch.items, x);
      CountAppend([], x);
      C.NoCounts();
      DrainedRows(index, p.batch, p.sent);
      assert p.sent + [] == p.sent;
    }
  }

  lemma NoneSent()
    ensures MemorySent([]) == 0
  {
  }

  lemma StartRows(c: C.Config, index: nat, v: C.Vcpu, ds: seq<Declared>, o: C.Out)
    requires Countable(C.Out(v, [])) && C.StartStep(c, index, v, ds) == Some(o)
    ensures Countable(o) && Memories(o) == MemoryCount(v.batch.items)
  {
    hide MemoryCount, MemorySent, Drained, PutSchemas;
    SchemasKept(c.features, index, v.batch, ds, |ds|);
    var p := PutSchemas(c.features, index, v.batch, ds, |ds|);
    DrainedRows(index, p.batch, p.sent);
    C.NoCounts();
  }

  lemma AskRowsKept(c: C.Config, index: nat, v: C.Vcpu, act: C.Act, o: C.Out)
    requires Countable(C.Out(v, [])) && act.Ask? && C.AskStep(c, index, v, act) == Some(o)
    ensures Countable(o) && Memories(o) == Memories(C.Out(v, []))
  {
    hide MemoryCount, MemorySent, C.SampleAll, C.FlushOut, C.AskFrame;
    var p := C.AskRows(c, index, v, act).value;
    if act.sample { SampleRows(c, index, C.Out(v, []), act.pc, 2, act.values, p); }
    FlushRows(index, p);
    var f := C.FlushOut(index, p);
    SentAppend(f.sent, Sent(C.AskFrame(index, f.v.batch.next, act.limit), []));
    C.NoCounts();
  }

  /** A callback appends a memory row exactly when it is a memory access. */
  lemma ActRows(c: C.Config, index: nat, v: C.Vcpu, act: C.Act, o: C.Out)
    requires Countable(C.Out(v, [])) && C.ActStep(c, index, v, act) == Some(o)
    ensures Countable(o) && Memories(o) == MemoryCount(v.batch.items) + if act.Touch? then 1 else 0
  {
    assert MemorySent([]) == 0;
    match act
    case Enter(_, _, _, _) =>
      hide C.EnterStep;
      EnterRows(c, index, v, act, o);
    case Touch(_, _) =>
      hide C.TouchStep;
      TouchRows(c, index, v, act, o);
    case Syscall(pc, values) =>
      hide C.SampleAll;
      SampleRows(c, index, C.Out(v, []), pc, 2, values, o);
    case Exit(_, _, _, _, _) =>
      hide C.ActStep;
      ExitRowsKept(c, index, v, act, o);
    case Ask(_, _, _, _) =>
      hide C.AskStep;
      AskRowsKept(c, index, v, act, o);
    case Flush => FlushRows(index, C.Out(v, []));
    case Start(ds) =>
      hide C.StartStep;
      StartRows(c, index, v, ds, o);
    case Translate(_) =>
  }

  // ---------------------------------------------------------------- the two books agree

  function Pending(vcpus: seq<C.Vcpu>): nat {
    if vcpus == [] then 0 else Pending(vcpus[..|vcpus| - 1]) + MemoryCount(vcpus[|vcpus| - 1].batch.items)
  }

  lemma {:induction false} PendingUpdate(vcpus: seq<C.Vcpu>, i: nat, v: C.Vcpu)
    requires i < |vcpus|
    ensures Pending(vcpus[i := v]) + MemoryCount(vcpus[i].batch.items) == Pending(vcpus) + MemoryCount(v.batch.items)
  {
    hide MemoryCount;
    var last := |vcpus| - 1;
    if i == last {
      assert vcpus[i := v][..last] == vcpus[..last];
    } else {
      PendingUpdate(vcpus[..last], i, v);
      assert vcpus[i := v][..last] == vcpus[..last][i := v];
    }
  }

  lemma {:induction false} RowsUpdate(vcpus: seq<F.Vcpu>, i: nat, v: F.Vcpu)
    requires i < |vcpus|
    ensures F.TotalRows(vcpus[i := v]) + vcpus[i].rows == F.TotalRows(vcpus) + v.rows
  {
    var last := |vcpus| - 1;
    if i == last {
      assert vcpus[i := v][..last] == vcpus[..last];
    } else {
      RowsUpdate(vcpus[..last], i, v);
      assert vcpus[i := v][..last] == vcpus[..last][i := v];
    }
  }

  /** The filter's view of a vCPU and the capture's. */
  predicate Alike(v: F.Vcpu, w: C.Vcpu) {
    && (v.life == F.Unused <==> w.life == C.Unused) && (v.life == F.Ended <==> w.life == C.Gone)
    && |w.batch.items| <= w.batch.next && (v.admission ==> w.recorded)
  }

  /** Rows the filter counted are on the wire or buffered, and the gate's vCPU has started. */
  ghost predicate Agrees(j: Joint) {
    var m, r := j.machine, j.raw;
    && |m.vcpus| == |r.vcpus| && (forall i :: 0 <= i < |m.vcpus| ==> Alike(m.vcpus[i], r.vcpus[i]))
    && F.TotalRows(m.vcpus) == MemorySent(r.wire) + Pending(r.vcpus)
    && (m.filter.latch == Known ==> m.filter.source < |m.vcpus| && m.vcpus[m.filter.source].life != F.Unused)
  }

  lemma AttributeShape(policy: Policy, v: F.Vcpu)
    ensures var r := F.Attribute(policy, v); r.Some? ==> r.value == v.(base := r.value.base, counts := r.value.counts)
  {
    hide Account, F.InlineTotal;
  }

  /** How one filter step changes the vCPU it concerns, and nothing else. */
  lemma FilterShape(m: F.Machine, e: F.Event, n: F.Machine)
    requires F.Step(m, e) == Some(n)
    ensures e.source < |m.vcpus| && |n.vcpus| == |m.vcpus| && n.vcpus == m.vcpus[e.source := n.vcpus[e.source]]
    ensures var v, w := m.vcpus[e.source], n.vcpus[e.source];
      && w.rows == v.rows + (if e.Access? && v.admission && v.recording then 1 else 0)
      && (e.Start? ==> v.life == F.Unused && w.life == F.Active)
      && (!e.Start? ==> v.life == F.Active && w.life == (if e.Exit? then F.Ended else F.Active))
      && (w.admission ==> v.admission || Records(m, e))
    ensures n.filter.latch == Known && n.filter != m.filter ==> n.filter.source == e.source
  {
    hide F.Attribute, RelationOf, Admits;
    var i := e.source;
    if i < |m.vcpus| {
      AttributeShape(m.filter.policy, m.vcpus[i]);
      assert m.vcpus[i := m.vcpus[i]] == m.vcpus;
    }
  }

  lemma RawShape(r: C.Raw, index: nat, act: C.Act, q: C.Raw)
    requires C.Step(r, C.Event(index, act)) == Some(q) && index < |r.vcpus|
    requires |r.vcpus[index].batch.items| <= r.vcpus[index].batch.next
    ensures |q.vcpus| == |r.vcpus| && q.vcpus == r.vcpus[index := q.vcpus[index]]
    ensures var v, w := r.vcpus[index], q.vcpus[index];
      && |w.batch.items| <= w.batch.next && w.life == C.LifeAfter(v, act) && (v.recorded || act.Enter? ==> w.recorded)
    ensures MemorySent(q.wire) + Pending(q.vcpus) == MemorySent(r.wire) + Pending(r.vcpus) + if act.Touch? then 1 else 0
  {
    hide MemoryCount, MemorySent, Pending, C.ActStep, C.Legal;
    var v, o := r.vcpus[index], C.ActStep(r.config, index, r.vcpus[index], act).value;
    ActRows(r.config, index, v, act, o);
    C.MemoryJoin(r.wire, o.sent);
    C.MemoryJoin(r.wire + o.sent, C.Announced(r, act));
    AnnouncedRows(r, act);
    PendingUpdate(r.vcpus, index, o.v);
    C.ActLife(r.config, index, v, act, o);
  }

  lemma AnnouncedRows(r: C.Raw, act: C.Act)
    ensures MemorySent(C.Announced(r, act)) == 0
  {
    hide C.LayoutFrame;
  }

  /** Every joint step keeps the books in agreement. */
  lemma StepAgrees(j: Joint, e: Event, k: Joint)
    requires Agrees(j) && Step(j, e) == Some(k)
    ensures Agrees(k)
  {
    hide F.Step, C.Step, F.TotalRows, MemorySent, Pending, Alike;
    if e.Idle? {
      IdleAgrees(j, e.source, k);
    } else {
      BothAgrees(j, e.filter, e.act, k);
    }
  }

  lemma LegalActive(r: C.Raw, e: C.Event)
    requires C.Step(r, e).Some?
    ensures e.index < |r.vcpus|
    ensures r.vcpus[e.index].life == if e.act.Start? then C.Unused else C.Active
  {
    hide C.ActStep, C.ValuesFit, C.ContextFits, Reported;
  }

  lemma IdleAgrees(j: Joint, source: nat, k: Joint)
    requires Agrees(j) && k.machine == j.machine && C.Step(j.raw, C.Event(source, C.Flush)) == Some(k.raw)
    ensures Agrees(k)
  {
    hide C.Step, F.TotalRows, MemorySent, Pending;
    LegalActive(j.raw, C.Event(source, C.Flush));
    assert Alike(j.machine.vcpus[source], j.raw.vcpus[source]);
    RawShape(j.raw, source, C.Flush, k.raw);
  }

  lemma BothAgrees(j: Joint, f: F.Event, act: Option<C.Act>, k: Joint)
    requires Agrees(j) && F.Step(j.machine, f) == Some(k.machine) && f.source < |j.machine.vcpus| == |k.machine.vcpus|
    requires Coupled(j.machine, f, k.machine, act)
    requires if act.None? then k.raw == j.raw else C.Step(j.raw, C.Event(f.source, act.value)) == Some(k.raw)
    ensures Agrees(k)
  {
    hide F.Step, C.Step, F.TotalRows, MemorySent, Pending;
    var i := f.source;
    FilterShape(j.machine, f, k.machine);
    RowsUpdate(j.machine.vcpus, i, k.machine.vcpus[i]);
    assert Alike(j.machine.vcpus[i], j.raw.vcpus[i]);
    if act.Some? { RawShape(j.raw, i, act.value, k.raw); }
    assert Alike(k.machine.vcpus[i], k.raw.vcpus[i]);
    forall x | 0 <= x < |k.machine.vcpus| ensures Alike(k.machine.vcpus[x], k.raw.vcpus[x]) {
      if x != i { assert Alike(j.machine.vcpus[x], j.raw.vcpus[x]); }
    }
  }

  lemma {:induction false} RunAgrees(j: Joint, events: seq<Event>)
    requires Agrees(j) && RunEvents(j, events).Some?
    ensures Agrees(RunEvents(j, events).value)
  {
    hide Agrees, Step;
    if events == [] {
    } else {
      RunAgrees(j, events[..|events| - 1]);
      StepAgrees(RunEvents(j, events[..|events| - 1]).value, events[|events| - 1], RunEvents(j, events).value);
    }
  }

  // ---------------------------------------------------------------- the whole capture

  predicate AllEnded(m: F.Machine) {
    forall i :: 0 <= i < |m.vcpus| ==> m.vcpus[i].life != F.Active
  }

  lemma {:induction false} NothingPending(vcpus: seq<C.Vcpu>)
    requires forall i :: 0 <= i < |vcpus| ==> vcpus[i].batch.items == []
    ensures Pending(vcpus) == 0
  {
    if vcpus == [] {
    } else {
      NothingPending(vcpus[..|vcpus| - 1]);
    }
  }

  /** Unstarted and ended vCPUs have nothing buffered. */
  predicate Flushed(r: C.Raw) {
    forall i :: 0 <= i < |r.vcpus| && r.vcpus[i].life != C.Active ==> r.vcpus[i].batch.items == []
  }

  lemma {:induction false} RunFlushed(r: C.Raw, events: seq<C.Event>)
    requires Flushed(r) && C.RunEvents(r, events).Some?
    ensures Flushed(C.RunEvents(r, events).value)
  {
    hide C.Step;
    if events == [] {
    } else {
      var front, e := events[..|events| - 1], events[|events| - 1];
      RunFlushed(r, front);
      StepFlushed(C.RunEvents(r, front).value, e, C.RunEvents(r, events).value);
    }
  }

  lemma StepFlushed(r: C.Raw, e: C.Event, q: C.Raw)
    requires Flushed(r) && C.Step(r, e) == Some(q)
    ensures Flushed(q)
  {
    LegalActive(r, e);
    hide C.ActStep, C.Legal;
    var v, o := r.vcpus[e.index], C.ActStep(r.config, e.index, r.vcpus[e.index], e.act).value;
    C.ActLife(r.config, e.index, v, e.act, o);
    if e.act.Exit? { ExitEmpties(r.config, e.index, v, e.act, o); }
  }

  lemma ExitEmpties(c: C.Config, index: nat, v: C.Vcpu, act: C.Act, o: C.Out)
    requires act.Exit? && C.ActStep(c, index, v, act) == Some(o)
    ensures o.v.batch.items == []
  {
    hide C.ExitRows, Drained, C.EndFrame;
  }

  /** What the stream knows once every vCPU has ended: all memory rows, and that the gate's vCPU was there. */
  lemma AwaitsSummary(j: Joint, t: State)
    requires Agrees(j) && Flushed(j.raw) && AllEnded(j.machine) && C.Tracks(t, j.raw) && t.features.contextFilter
    requires j.machine.filter.latch == Known && !t.filterSeen && t.filterRows == MemorySent(j.raw.wire)
    ensures F.AwaitsFilter(t, j.machine.filter, F.TotalRows(j.machine.vcpus))
  {
    hide MemorySent, C.Link, F.TotalRows, Pending, C.ConfigOk;
    var m, r := j.machine, j.raw;
    forall i | 0 <= i < |r.vcpus| ensures r.vcpus[i].life != C.Active && r.vcpus[i].batch.items == [] {
      assert Alike(m.vcpus[i], r.vcpus[i]);
    }
    NothingPending(r.vcpus);
    SpanIsOff(t, r);
    T.AllEnded(t, r);
    var g := m.filter.source;
    assert Alike(m.vcpus[g], r.vcpus[g]);
    GateBound(t, r, g);
    assert C.CpuTracks(r.config, t, g, r.vcpus[g]);
  }

  lemma SpanIsOff(t: State, r: C.Raw)
    requires C.Tracks(t, r) && t.features.contextFilter
    ensures !r.config.features.executableLayout
  {
    hide C.CpuTracks;
  }

  lemma GateBound(t: State, r: C.Raw, g: nat)
    requires C.Tracks(t, r) && g < |r.vcpus|
    ensures g < MAX_SOURCES
  {
    hide C.CpuTracks;
  }

  /**
   * A whole filtered capture: whatever the vCPUs do, as long as the summed counters
   * fit, every schema, row frame and terminator is accepted exactly when the register
   * names are printable; the stream has then counted exactly the kept accesses; the
   * summary is accepted exactly when kept and dropped accesses together fit 64 bits,
   * and then so is Complete.
   */
  lemma FilteredCaptureAccepted(s: State, j: Joint, events: seq<Event>, k: Joint, frame: Frame)
    requires C.Tracks(s, j.raw) && X.AllCalm(j.raw) && j.raw.config.blocks && Flushed(j.raw) && j.raw.wire == []
    requires F.Inv(j.machine) && Agrees(j) && s.features.contextFilter && s.filterRows == 0 && !s.filterSeen
    requires !s.features.transitionWindows && !s.features.observationReduction && s.windows.sources == 0
    requires RunEvents(j, events) == Some(k) && AllEnded(k.machine) && F.Countable(k.machine)
    requires k.machine.filter.latch == Known && k.machine.filter.cr3 <= MAX64 && F.TotalCounts(k.machine.vcpus).Some?
    requires frame == F.FilterFrame(k.machine.filter, F.TotalCounts(k.machine.vcpus).value)
    ensures C.Takes(s, Frames(k.raw.wire)).Some? <==> C.AllFine(RawEvents(events))
    ensures C.AllFine(RawEvents(events)) ==>
      var t, counts := C.Takes(s, Frames(k.raw.wire)).value, F.TotalCounts(k.machine.vcpus).value;
      && t.filterRows == MemorySent(k.raw.wire) == counts.kept
      && (Accept(t, frame).Some? <==> counts.kept + counts.dropped <= MAX64)
      && (Accept(t, frame).Some? ==> Accept(Accept(t, frame).value, T.COMPLETE).Some?)
  {
    hide C.Tracks, X.AllCalm, F.Inv, Agrees, RunEvents, Flushed, AllEnded, F.Countable, C.RunEvents, F.RunEvents,
      Accept, MemorySent, F.TotalCounts, F.TotalRows, F.FilterFrame, F.AwaitsFilter, FilterFull, C.AllFine;
    Halves(j, events);
    RunAgrees(j, events);
    F.RunKeeps(j.machine, FilterEvents(events));
    RunFlushed(j.raw, RawEvents(events));
    KeptRows(k);
    X.BlocksKeepApart(j.raw, RawEvents(events), k.raw);
    C.RunAccepted(s, j.raw, RawEvents(events), k.raw);
    assert C.Since(j.raw, k.raw) == k.raw.wire;
    RoomLeft(s, MemorySent(k.raw.wire));
    if C.AllFine(RawEvents(events)) {
      var t := C.Takes(s, Frames(k.raw.wire)).value;
      AwaitsSummary(k, t);
      Summarised(t, k, frame);
    }
  }

  lemma RoomLeft(s: State, rows: nat)
    requires s.filterRows == 0 && rows <= MAX64
    ensures !FilterFull(s, rows)
  {
  }

  /** With every vCPU ended, the kept count is the number of memory rows on the wire. */
  lemma KeptRows(k: Joint)
    requires Agrees(k) && Flushed(k.raw) && AllEnded(k.machine) && F.Inv(k.machine)
    requires F.TotalCounts(k.machine.vcpus).Some?
    ensures F.TotalCounts(k.machine.vcpus).value.kept == F.TotalRows(k.machine.vcpus) == MemorySent(k.raw.wire) <= MAX64
  {
    hide MemorySent, F.TotalRows, Pending, F.TotalCounts, F.Booked;
    forall i | 0 <= i < |k.raw.vcpus| ensures k.raw.vcpus[i].batch.items == [] {
      assert Alike(k.machine.vcpus[i], k.raw.vcpus[i]);
    }
    NothingPending(k.raw.vcpus);
    F.TotalsBalance(k.machine.filter.policy, k.machine.vcpus);
  }

  lemma Summarised(t: State, k: Joint, frame: Frame)
    requires F.Inv(k.machine) && AllEnded(k.machine) && k.machine.filter.latch == Known && k.machine.filter.cr3 <= MAX64
    requires F.TotalCounts(k.machine.vcpus).Some? && F.AwaitsFilter(t, k.machine.filter, F.TotalRows(k.machine.vcpus))
    requires frame == F.FilterFrame(k.machine.filter, F.TotalCounts(k.machine.vcpus).value)
    requires !t.features.transitionWindows && !t.features.observationReduction && t.windows.sources == 0
    ensures var counts := F.TotalCounts(k.machine.vcpus).value;
      && (Accept(t, frame).Some? <==> counts.kept + counts.dropped <= MAX64)
      && (Accept(t, frame).Some? ==> Accept(Accept(t, frame).value, T.COMPLETE).Some?)
  {
    hide F.Inv, F.TotalCounts, F.TotalRows, F.FilterBytes, AcceptSingle;
    F.FilterSummaryAccepted(t, k.machine, frame);
    if Accept(t, frame).Some? {
      var u := t.(filterSeen := true);
      assert Accept(t, frame) == Some(u);
      SameEnded(t, u);
      hide AllSeenEnded;
      Dispatch(u, T.COMPLETE.header, []);
    }
  }

  lemma SameEnded(t: State, u: State)
    requires u.sources == t.sources && AllSeenEnded(t)
    ensures AllSeenEnded(u)
  {
  }

  /** A capture starts right after Hello. */
  lemma StartsTogether(h: Header, policy: Policy, gate: nat, j: Joint)
    requires h.kind == Hello && LegalHeader(h) && h.version == VERSION && j.raw.config.features == FeaturesOf(h.detail)
    requires C.ConfigOk(j.raw.config, |j.raw.vcpus|) && j.raw.wire == [] && !j.raw.laid
    requires |j.machine.vcpus| == |j.raw.vcpus|
    requires j.machine == F.Machine(Filter(policy, Waiting, 0, 0, 0, 0), gate, false, j.machine.vcpus)
    requires forall i :: 0 <= i < |j.raw.vcpus| ==> j.raw.vcpus[i] == C.FRESH && j.machine.vcpus[i] == F.FRESH
    ensures C.Tracks(T.Greeted(h), j.raw) && X.AllCalm(j.raw) && Flushed(j.raw) && F.Inv(j.machine) && Agrees(j)
  {
    hide LegalHeader, FeaturesOf, T.Greeted, C.Tracks, X.AllCalm, F.Inv;
    T.StartTracks(h, j.raw);
    T.StartCalm(j.raw);
    F.StartInv(policy, gate, j.machine.vcpus);
    forall i | 0 <= i < |j.raw.vcpus| ensures j.raw.vcpus[i].batch.items == [] &&
      Alike(j.machine.vcpus[i], j.raw.vcpus[i]) {
      assert j.raw.vcpus[i] == C.FRESH && j.machine.vcpus[i] == F.FRESH;
    }
    NothingPending(j.raw.vcpus);
    NoRowsYet(j.machine.vcpus);
  }

  lemma {:induction false} NoRowsYet(vcpus: seq<F.Vcpu>)
    requires forall i :: 0 <= i < |vcpus| ==> vcpus[i] == F.FRESH
    ensures F.TotalRows(vcpus) == 0
  {
    if vcpus == [] {
    } else {
      NoRowsYet(vcpus[..|vcpus| - 1]);
    }
  }
}
