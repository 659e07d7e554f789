/**
When two context rows end up next to each other in one frame: exactly when a callback
appends a changed context behind one that is still the last row of its vCPU's buffer,
and there is room for it. Stated on the callbacks alone, then turned into what the
stream accepts. Block rows never let it happen.
*/
module ContextCrowding {
  import opened Words
  import opened Wire
  import opened Validator
  import opened RowBatches
  import opened Contexts
  import opened RowAcceptance
  import opened CaptureRows
  import opened RowStreams
  import opened RegisterSchemas
  import opened RawCapture

  // ---------------------------------------------------------------- what a callback appends

  /** The callback appends a context: one is read, and it differs from the last. */
  predicate NewContext(c: Config, v: Vcpu, act: Act) {
    && c.features.addressContext
    && (act.Enter? || (act.Exit? && act.sample) || (act.Touch? && !c.features.contextFilter))
    && v.context != Some(act.context)
  }

  function ContextPc(act: Act): u64
    requires act.Enter? || act.Exit? || act.Touch?
  {
    if act.Touch? then act.access.pc else act.pc
  }

  predicate Unchanged(v: Vcpu, values: seq<seq<byte>>) {
    |values| == |v.previous| && forall i :: 0 <= i < |values| ==> v.previous[i] == Some(values[i])
  }

  /** Apart from a context, the callback appends nothing and leaves the buffer alone. */
  predicate Quiet(c: Config, v: Vcpu, act: Act) {
    match act
    case Translate(_) => true
    case Enter(_, _, values, rich) => !c.blocks && (rich ==> Unchanged(v, values))
    case Syscall(_, values) => Unchanged(v, values)
    case _ => false
  }

  /** The last row appended and not yet flushed is a context. */
  predicate EndsInContext(items: seq<Item>) {
    items != [] && items[|items| - 1].kind == AddressContext
  }

  /** A context of this callback joins the frame of what is buffered. */
  predicate RoomFor(c: Config, v: Vcpu, act: Act)
    requires NewContext(c, v, act)
  {
    Joins(v.batch, c.features.mixed, ContextRow(ContextPc(act), act.context, c.known))
  }

  /** The callback puts a context right behind another. */
  predicate Crowds(c: Config, v: Vcpu, act: Act) {
    EndsInContext(v.batch.items) && NewContext(c, v, act) && RoomFor(c, v, act)
  }

  // ---------------------------------------------------------------- one row

  /** Nothing buffered is lost when it is flushed. */
  predicate Counted(b: Batch) {
    b.kind == RegisterSchema || |b.items| <= b.next
  }

  /** Nothing sent or buffered has neighbouring contexts. */
  predicate OutApart(o: Out) {
    NoTwins(o.v.batch.items) && Apart(o.sent)
  }

  lemma TwinAppend(items: seq<Item>, x: Item)
    ensures NoTwins(items + [x]) <==> NoTwins(items) && !(EndsInContext(items) && x.kind == AddressContext)
  {
    var more := items + [x];
    if NoTwins(items) && !(EndsInContext(items) && x.kind == AddressContext) {
      forall i | 0 < i < |more| ensures !TwinAt(more, i) {
        if i < |items| { assert !TwinAt(items, i); }
      }
    }
    if NoTwins(more) {
      forall i | 0 < i < |items| ensures !TwinAt(items, i) { assert !TwinAt(more, i); }
      if items != [] { assert !TwinAt(more, |items|); }
    }
  }

  lemma DrainTwins(index: nat, b: Batch, sent: seq<Sent>)
    requires Counted(b)
    ensures Apart(sent + Drained(index, b)) <==> Apart(sent) && NoTwins(b.items)
  {
    hide NoTwins, BatchFrame, Apart, Frames;
    NoCounts();
    if b.items == [] {
      assert sent + [] == sent;
    } else {
      SentAppend(sent, Sent(BatchFrame(index, b), b.items));
    }
  }

  /** Appending a row makes neighbours exactly when both are contexts and it joins. */
  lemma JoinTwins(f: Features, index: nat, b: Batch, sent: seq<Sent>, x: Item)
    requires Counted(b)
    ensures var d, more := Joining(b, f.mixed, x), sent + MadeRoom(f, index, b, x);
      && Counted(d) && (EndsInContext(d.items) <==> x.kind == AddressContext)
      && (NoTwins(d.items) && Apart(more) <==>
            NoTwins(b.items) && Apart(sent) &&
            !(EndsInContext(b.items) && x.kind == AddressContext && Joins(b, f.mixed, x)))
  {
    hide NoTwins, Apart, Payload, Drained;
    NoCounts();
    TwinAppend(b.items, x);
    TwinAppend([], x);
    DrainTwins(index, b, sent);
    assert sent + [] == sent;
  }

  lemma PutTwins(c: Config, index: nat, o: Out, x: Item, p: Out)
    requires Counted(o.v.batch) && Put(c, index, o, x) == Some(p)
    ensures Counted(p.v.batch) && (EndsInContext(p.v.batch.items) <==> x.kind == AddressContext)
    ensures OutApart(p) <==>
      OutApart(o) &&
      !(EndsInContext(o.v.batch.items) && x.kind == AddressContext && Joins(o.v.batch, c.features.mixed, x))
    ensures p.v == o.v.(batch := p.v.batch)
  {
    hide NoTwins, Apart, Joining, MadeRoom, Joins;
    JoinTwins(c.features, index, o.v.batch, o.sent, x);
  }

  lemma FlushTwins(index: nat, o: Out)
    requires Counted(o.v.batch)
    ensures var p := FlushOut(index, o);
      Counted(p.v.batch) && !EndsInContext(p.v.batch.items) && (OutApart(p) <==> OutApart(o))
  {
    hide NoTwins, Apart, Drained;
    DrainTwins(index, o.v.batch, o.sent);
    NoCounts();
  }

  // ---------------------------------------------------------------- parts of a callback

  lemma ContextTwins(c: Config, index: nat, o: Out, pc: u64, context: Context, p: Out)
    requires Counted(o.v.batch) && PutContext(c, index, o, pc, context) == Some(p)
    ensures var appends := c.features.addressContext && o.v.context != Some(context);
      && Counted(p.v.batch) && (EndsInContext(p.v.batch.items) <==> appends || EndsInContext(o.v.batch.items))
      && (OutApart(p) <==>
            OutApart(o) && !(appends && EndsInContext(o.v.batch.items) &&
                             Joins(o.v.batch, c.features.mixed, ContextRow(pc, context, c.known))))
      && p.v == o.v.(batch := p.v.batch, context := p.v.context, contextSequence := p.v.contextSequence)
  {
    hide NoTwins, Apart, ContextRow, Put, Joins, EndsInContext, Counted;
    var x := ContextRow(pc, context, c.known);
    ContextKind(pc, context, c.known);
    if c.features.addressContext && o.v.context != Some(context) {
      PutTwins(c, index, o, x, Put(c, index, o, x).value);
    }
  }

  lemma {:induction false} RegistersTwins(c: Config, index: nat, o: Out, pc: u64, checkpoint: nat,
                                          values: seq<seq<byte>>, n: nat, p: Out)
    requires n <= |values| == |o.v.previous| && Counted(o.v.batch)
    requires PutRegisters(c, index, o, pc, checkpoint, values, n) == Some(p)
    ensures Counted(p.v.batch) && (OutApart(p) <==> OutApart(o))
    ensures EndsInContext(p.v.batch.items) <==>
      EndsInContext(o.v.batch.items) && forall i :: 0 <= i < n ==> o.v.previous[i] == Some(values[i])
    ensures |p.v.previous| == |values| && forall i :: n <= i < |values| ==> p.v.previous[i] == o.v.previous[i]
    decreases n
  {
    hide OutApart, RegisterRow, Put, Joins, EndsInContext, Counted;
    if n == 0 {
    } else {
      var m := PutRegisters(c, index, o, pc, checkpoint, values, n - 1).value;
      RegistersTwins(c, index, o, pc, checkpoint, values, n - 1, m);
      if m.v.previous[n - 1] != Some(values[n - 1]) {
        var x := RegisterRow(pc, n - 1, checkpoint, m.v.previous[n - 1].None?, values[n - 1]);
        RegisterKind(pc, n - 1, checkpoint, m.v.previous[n - 1].None?, values[n - 1]);
        var q := Put(c, index, m, x).value;
        PutTwins(c, index, m, x, q);
        SameBatch(q, p);
      }
    }
  }

  lemma SameBatch(o: Out, p: Out)
    requires p.v.batch == o.v.batch && p.sent == o.sent
    ensures OutApart(p) <==> OutApart(o)
  {
  }

  lemma SampleTwins(c: Config, index: nat, o: Out, pc: u64, checkpoint: nat, values: seq<seq<byte>>, p: Out)
    requires Counted(o.v.batch) && SampleAll(c, index, o, pc, checkpoint, values) == Some(p)
    ensures Counted(p.v.batch) && (OutApart(p) <==> OutApart(o))
    ensures EndsInContext(p.v.batch.items) <==> EndsInContext(o.v.batch.items) && Unchanged(o.v, values)
  {
    hide OutApart, PutRegisters, EndsInContext, Counted;
    RegistersTwins(c, index, o, pc, checkpoint, values, |values|, p);
  }

  lemma BlockTwins(c: Config, index: nat, o: Out, pc: u64, p: Out)
    requires Counted(o.v.batch) && PutBlock(c, index, o, pc) == Some(p)
    ensures Counted(p.v.batch) && (OutApart(p) <==> OutApart(o))
    ensures EndsInContext(p.v.batch.items) <==> EndsInContext(o.v.batch.items) && !c.blocks
  {
    hide OutApart, Put, Joins, EndsInContext, Counted, FlushOut;
    if c.blocks {
      var m := Put(c, index, o, BlockRow(pc)).value;
      PutTwins(c, index, o, BlockRow(pc), m);
      FlushTwins(index, m);
    }
  }

  lemma {:induction false} SchemasTwins(f: Features, index: nat, b: Batch, ds: seq<Declared>, n: nat)
    requires Admissible(ds) && n <= |ds| && Counted(b)
    ensures var p := PutSchemas(f, index, b, ds, n);
      Counted(p.batch) && (NoTwins(p.batch.items) && Apart(p.sent) <==> NoTwins(b.items))
  {
    hide NoTwins, Joining, MadeRoom, SchemaRow, Admissible, Joins, EndsInContext, Counted, Apart;
    if n == 0 {
      assert Apart([]) by { NoneApart(); }
    } else {
      SchemasTwins(f, index, b, ds, n - 1);
      RowSize(ds, n - 1);
      var p, x := PutSchemas(f, index, b, ds, n - 1), SchemaRow(n - 1, ds[n - 1]);
      JoinTwins(f, index, p.batch, p.sent, x);
    }
  }

  lemma NoneApart()
    ensures Apart([])
  {
  }

  // ---------------------------------------------------------------- one callback

  /** What a callback does to its vCPU's buffer, as far as contexts are concerned. */
  ghost predicate Turns(c: Config, v: Vcpu, act: Act, o: Out) {
    && Counted(o.v.batch)
    && (OutApart(o) <==> NoTwins(v.batch.items) && !Crowds(c, v, act))
    && (EndsInContext(o.v.batch.items) <==>
          Quiet(c, v, act) && (NewContext(c, v, act) || EndsInContext(v.batch.items)))
  }

  lemma StartOut(v: Vcpu)
    ensures OutApart(Out(v, [])) <==> NoTwins(v.batch.items)
  {
    hide NoTwins;
  }

  lemma EnterTurns(c: Config, index: nat, v: Vcpu, act: Act, o: Out)
    requires Counted(v.batch) && act.Enter? && EnterStep(c, index, v, act) == Some(o)
    ensures Turns(c, v, act, o)
  {
    hide OutApart, PutContext, SampleAll, PutBlock, Joins, EndsInContext, Counted, ContextRow;
    StartOut(v);
    var p := PutContext(c, index, Out(v, []), act.pc, act.context).value;
    ContextTwins(c, index, Out(v, []), act.pc, act.context, p);
    var q := p;
    if act.rich {
      q := SampleAll(c, index, p, act.pc, 1, act.values).value;
      SampleTwins(c, index, p, act.pc, 1, act.values, q);
    }
    var m := PutBlock(c, index, q, act.pc).value;
    BlockTwins(c, index, q, act.pc, m);
    SameBatch(m, o);
  }

  lemma TouchTurns(c: Config, index: nat, v: Vcpu, act: Act, o: Out)
    requires Counted(v.batch) && act.Touch? && TouchStep(c, index, v, act) == Some(o)
    ensures Turns(c, v, act, o)
  {
    hide OutApart, PutContext, Put, Joins, EndsInContext, Counted, ContextRow;
    StartOut(v);
    var p := Out(v, []);
    if !c.features.contextFilter {
      p := PutContext(c, index, Out(v, []), act.access.pc, act.context).value;
      ContextTwins(c, index, Out(v, []), act.access.pc, act.context, p);
    }
    PutTwins(c, index, p, MemoryRow(c.features, act.access, p.v.contextSequence), o);
  }

  /** A frame without rows changes nothing here. */
  lemma BareFrame(o: Out, frame: Frame)
    ensures OutApart(o.(sent := o.sent + [Sent(frame, [])])) <==> OutApart(o)
  {
    hide NoTwins, Apart, Frames;
    NoCounts();
    SentAppend(o.sent, Sent(frame, []));
  }

  lemma ExitTurns(c: Config, index: nat, v: Vcpu, act: Act, o: Out)
    requires Counted(v.batch) && act.Exit? && ActStep(c, index, v, act) == Some(o)
    ensures Turns(c, v, act, o)
  {
    hide OutApart, PutContext, SampleAll, Joins, EndsInContext, Counted, ContextRow, FlushOut, EndFrame;
    StartOut(v);
    var p := ExitRows(c, index, v, act).value;
    if act.sample {
      var q := PutContext(c, index, Out(v, []), act.pc, act.context).value;
      ContextTwins(c, index, Out(v, []), act.pc, act.context, q);
      if act.rich { SampleTwins(c, index, q, act.pc, 3, act.values, p); }
    }
    FlushTwins(index, p);
    var f := FlushOut(index, p);
    BareFrame(f, EndFrame(index, f.v.batch.next));
    SameBatch(f.(sent := o.sent), o);
  }

  lemma AskTurns(c: Config, index: nat, v: Vcpu, act: Act, o: Out)
    requires Counted(v.batch) && act.Ask? && ActStep(c, index, v, act) == Some(o)
    ensures Turns(c, v, act, o)
  {
    hide OutApart, SampleAll, Joins, EndsInContext, Counted, FlushOut, AskFrame;
    StartOut(v);
    var p := AskRows(c, index, v, act).value;
    if act.sample { SampleTwins(c, index, Out(v, []), act.pc, 2, act.values, p); }
    FlushTwins(index, p);
    var f := FlushOut(index, p);
    BareFrame(f, AskFrame(index, f.v.batch.next, act.limit));
  }

  lemma StartTurns(c: Config, index: nat, v: Vcpu, ds: seq<Declared>, o: Out)
    requires Counted(v.batch) && ActStep(c, index, v, Start(ds)) == Some(o)
    ensures Turns(c, v, Start(ds), o)
  {
    hide PutSchemas, EndsInContext, Counted, FlushOut, NoTwins, Apart, Admissible;
    SchemasTwins(c.features, index, v.batch, ds, |ds|);
    var p := PutSchemas(c.features, index, v.batch, ds, |ds|);
    var w := v.(life := Active, batch := p.batch, widths := seq(|ds|, i requires 0 <= i < |ds| => ds[i].width),
                previous := seq(|ds|, _ => None));
    FlushTwins(index, Out(w, p.sent));
  }

  /** Every callback: neighbours appear exactly when it crowds, a lone context stays last exactly when it is quiet. */
  lemma ActTurns(c: Config, index: nat, v: Vcpu, act: Act, o: Out)
    requires Counted(v.batch) && ActStep(c, index, v, act) == Some(o)
    ensures Turns(c, v, act, o)
  {
    match act
    case Enter(_, _, _, _) =>
      hide EnterStep, Turns;
      EnterTurns(c, index, v, act, o);
    case Touch(_, _) =>
      hide TouchStep, Turns;
      TouchTurns(c, index, v, act, o);
    case Syscall(pc, values) =>
      hide SampleAll, OutApart, EndsInContext, Counted;
      StartOut(v);
      SampleTwins(c, index, Out(v, []), pc, 2, values, o);
    case Exit(_, _, _, _, _) =>
      hide ActStep, Turns;
      ExitTurns(c, index, v, act, o);
    case Ask(_, _, _, _) =>
      hide ActStep, Turns;
      AskTurns(c, index, v, act, o);
    case Flush =>
      hide FlushOut, OutApart, EndsInContext, Counted;
      StartOut(v);
      FlushTwins(index, Out(v, []));
    case Start(ds) =>
      hide ActStep, Turns;
      StartTurns(c, index, v, ds, o);
    case Translate(_) =>
      hide NoTwins;
  }

  // ---------------------------------------------------------------- whole runs

  /** Since its last other row, flush or frame break, this vCPU appended a context: read off the callbacks. */
  predicate Lone(r: Raw, events: seq<Event>, i: nat)
    requires i < |r.vcpus|
  {
    if events == [] then EndsInContext(r.vcpus[i].batch.items)
    else
      var front, e := events[..|events| - 1], events[|events| - 1];
      if e.index != i then Lone(r, front, i)
      else
        var m := RunEvents(r, front);
        && m.Some? && i < |m.value.vcpus| && Quiet(r.config, m.value.vcpus[i], e.act)
        && (NewContext(r.config, m.value.vcpus[i], e.act) || Lone(r, front, i))
  }

  /** Callback `k` appends a changed context behind a lone one, into the same frame. */
  predicate Crowded(r: Raw, events: seq<Event>, k: nat)
    requires k < |events|
  {
    var m, e := RunEvents(r, events[..k]), events[k];
    && m.Some? && e.index < |m.value.vcpus| && e.index < |r.vcpus| && Lone(r, events[..k], e.index)
    && NewContext(r.config, m.value.vcpus[e.index], e.act) && RoomFor(r.config, m.value.vcpus[e.index], e.act)
  }

  predicate Uncrowded(r: Raw, events: seq<Event>) {
    forall k :: 0 <= k < |events| ==> !Crowded(r, events, k)
  }

  predicate AllCounted(r: Raw) {
    forall i :: 0 <= i < |r.vcpus| ==> Counted(r.vcpus[i].batch)
  }

  /** No frame on the wire or in a buffer has neighbouring contexts. */
  predicate AllApart(r: Raw) {
    Apart(r.wire) && forall i :: 0 <= i < |r.vcpus| ==> NoTwins(r.vcpus[i].batch.items)
  }

  lemma AnnouncedApart(r: Raw, act: Act)
    ensures Apart(Announced(r, act))
  {
    hide LayoutFrame;
    NoCounts();
  }

  lemma StepTurns(m: Raw, e: Event, q: Raw)
    requires AllCounted(m) && Step(m, e) == Some(q)
    ensures AllCounted(q) && e.index < |m.vcpus| == |q.vcpus| && q.config == m.config
    ensures AllApart(q) <==> AllApart(m) && !Crowds(m.config, m.vcpus[e.index], e.act)
    ensures forall i :: 0 <= i < |m.vcpus| && i != e.index ==> q.vcpus[i] == m.vcpus[i]
    ensures var v := m.vcpus[e.index];
      EndsInContext(q.vcpus[e.index].batch.items) <==>
        Quiet(m.config, v, e.act) && (NewContext(m.config, v, e.act) || EndsInContext(v.batch.items))
  {
    StepWire(m, e, q);
    hide ActStep, Legal, NoTwins, Counted, Crowds, EndsInContext, Quiet, NewContext;
    var v, o := m.vcpus[e.index], ActStep(m.config, e.index, m.vcpus[e.index], e.act).value;
    ActTurns(m.config, e.index, v, e.act, o);
    hide Apart, Announced;
    SentJoin(m.wire, o.sent);
    SentJoin(m.wire + o.sent, Announced(m, e.act));
    AnnouncedApart(m, e.act);
    if AllApart(q) {
      forall i | 0 <= i < |m.vcpus| && i != e.index ensures NoTwins(m.vcpus[i].batch.items) {
        assert NoTwins(q.vcpus[i].batch.items);
      }
      assert NoTwins(q.vcpus[e.index].batch.items);
    }
  }

  /** The callbacks say which vCPU's buffer ends in a context. */
  lemma {:induction false} LoneIsLast(r: Raw, events: seq<Event>, q: Raw)
    requires AllCounted(r) && RunEvents(r, events) == Some(q)
    ensures AllCounted(q) && |q.vcpus| == |r.vcpus| && q.config == r.config
    ensures forall i :: 0 <= i < |r.vcpus| ==> (Lone(r, events, i) <==> EndsInContext(q.vcpus[i].batch.items))
  {
    hide Step, EndsInContext, Quiet, NewContext, AllCounted;
    if events == [] {
    } else {
      var front, e := events[..|events| - 1], events[|events| - 1];
      var m := RunEvents(r, front).value;
      LoneIsLast(r, front, m);
      StepTurns(m, e, q);
    }
  }

  /** Neighbouring contexts appear exactly when a callback crowds. */
  lemma {:induction false} RunCrowds(r: Raw, events: seq<Event>, q: Raw)
    requires AllCounted(r) && AllApart(r) && RunEvents(r, events) == Some(q)
    ensures AllApart(q) <==> Uncrowded(r, events)
  {
    hide Step, EndsInContext, RoomFor, NewContext, AllCounted, AllApart, Lone, Crowded;
    if events == [] {
    } else {
      var front, e := events[..|events| - 1], events[|events| - 1];
      var m := RunEvents(r, front).value;
      RunCrowds(r, front, m);
      LoneIsLast(r, front, m);
      StepTurns(m, e, q);
      LastCrowds(r, events, m, e);
    }
  }

  lemma LastCrowds(r: Raw, events: seq<Event>, m: Raw, e: Event)
    requires events != [] && e == events[|events| - 1] && RunEvents(r, events[..|events| - 1]) == Some(m)
    requires e.index < |m.vcpus| == |r.vcpus| && m.config == r.config
    requires Lone(r, events[..|events| - 1], e.index) <==> EndsInContext(m.vcpus[e.index].batch.items)
    ensures Uncrowded(r, events) <==>
      Uncrowded(r, events[..|events| - 1]) && !Crowds(m.config, m.vcpus[e.index], e.act)
  {
    hide Crowded, Crowds, Lone, EndsInContext, RunEvents;
    var front := events[..|events| - 1];
    CrowdedLast(r, events, m, e);
    forall k | 0 <= k < |front| ensures Crowded(r, front, k) <==> Crowded(r, events, k) { CrowdedFront(r, events, k); }
    if Uncrowded(r, events) {
      forall k | 0 <= k < |front| ensures !Crowded(r, front, k) { assert !Crowded(r, events, k); }
    }
  }

  lemma CrowdedLast(r: Raw, events: seq<Event>, m: Raw, e: Event)
    requires events != [] && e == events[|events| - 1] && RunEvents(r, events[..|events| - 1]) == Some(m)
    requires e.index < |m.vcpus| == |r.vcpus| && m.config == r.config
    requires Lone(r, events[..|events| - 1], e.index) <==> EndsInContext(m.vcpus[e.index].batch.items)
    ensures Crowded(r, events, |events| - 1) <==> Crowds(m.config, m.vcpus[e.index], e.act)
  {
    hide Lone, EndsInContext, RunEvents, RoomFor, NewContext;
  }

  lemma CrowdedFront(r: Raw, events: seq<Event>, k: nat)
    requires k < |events| - 1
    ensures Crowded(r, events[..|events| - 1], k) <==> Crowded(r, events, k)
  {
    hide Lone, EndsInContext, RunEvents, RoomFor, NewContext;
    assert events[..|events| - 1][..k] == events[..k];
  }

  // ---------------------------------------------------------------- what the stream accepts

  predicate AllFlushed(r: Raw) {
    forall i :: 0 <= i < |r.vcpus| ==> r.vcpus[i].batch.items == []
  }

  /**
   * Every run that ends with empty buffers, in terms of its callbacks: accepted exactly
   * when names are printable, input is requested only while recording, and no context
   * is appended right behind another in one frame.
   */
  lemma EventsAccepted(s: State, r: Raw, events: seq<Event>, q: Raw)
    requires Tracks(s, r) && AllCounted(r) && AllApart(r) && RunEvents(r, events) == Some(q) && AllFlushed(q)
    ensures r.wire <= q.wire
    ensures Takes(s, Frames(Since(r, q))).Some? <==>
      AllFine(events) && Uncrowded(r, events) && !FilterFull(s, MemorySent(Since(r, q)))
  {
    RunAccepted(s, r, events, q);
    RunCrowds(r, events, q);
    hide Tracks, AllCounted, RunEvents, AllFine, Uncrowded, FilterFull, MemorySent, Takes;
    FlushedApart(q);
    ApartSince(r, q);
    ApartWire(r);
  }

  lemma FlushedApart(q: Raw)
    requires AllFlushed(q)
    ensures AllApart(q) <==> Apart(q.wire)
  {
    NoCounts();
    hide NoTwins;
  }

  lemma ApartWire(r: Raw)
    requires AllApart(r)
    ensures Apart(r.wire)
  {
  }

  lemma ApartSince(r: Raw, q: Raw)
    requires r.wire <= q.wire
    ensures Apart(q.wire) <==> Apart(r.wire) && Apart(Since(r, q))
  {
    hide NoTwins;
    assert q.wire == r.wire + Since(r, q);
    SentJoin(r.wire, Since(r, q));
  }

  // ---------------------------------------------------------------- block rows

  /** Nothing sent or buffered has neighbouring contexts, and no buffer ends in one. */
  predicate AllCalm(r: Raw) {
    AllCounted(r) && AllApart(r) && forall i :: 0 <= i < |r.vcpus| ==> !EndsInContext(r.vcpus[i].batch.items)
  }

  /** With block rows on, no callback leaves a context as the last row. */
  lemma CalmStep(r: Raw, e: Event, q: Raw)
    requires r.config.blocks && AllCalm(r) && Step(r, e) == Some(q)
    ensures q.config == r.config && AllCalm(q)
  {
    hide Step, AllCounted, AllApart, Unchanged, RoomFor;
    StepTurns(r, e, q);
  }

  lemma {:induction false} CalmRun(r: Raw, events: seq<Event>, q: Raw)
    requires r.config.blocks && AllCalm(r) && RunEvents(r, events) == Some(q)
    ensures q.config == r.config && AllCalm(q)
  {
    hide Step, AllCalm;
    if events == [] {
    } else {
      var m := RunEvents(r, events[..|events| - 1]).value;
      CalmRun(r, events[..|events| - 1], m);
      CalmStep(m, events[|events| - 1], q);
    }
  }

  lemma CalmWire(r: Raw)
    requires AllCalm(r)
    ensures Apart(r.wire) && AllApart(r) && AllCounted(r)
  {
  }

  /** With block rows on, no run ever sends neighbouring contexts. */
  lemma BlocksKeepApart(r: Raw, events: seq<Event>, q: Raw)
    requires r.config.blocks && AllCalm(r) && RunEvents(r, events) == Some(q)
    ensures Apart(q.wire) && Uncrowded(r, events) && q.config == r.config
  {
    hide RunEvents, AllCalm, AllApart, AllCounted, Uncrowded;
    CalmRun(r, events, q);
    CalmWire(r);
    CalmWire(q);
    RunCrowds(r, events, q);
  }
}
