/**
Raw capture end to end: starts, block entries, memory accesses, system calls and
exits of all vCPUs in any order, each appending rows to its vCPU's buffer, with
buffers flushed whenever they are full, idle or drained. Every frame on the wire is
accepted exactly when register names are printable, no input is requested before
recording starts, and no frame holds two neighbouring context rows - which block
rows always prevent.
*/
module RawCapture {
  import opened Words
  import opened Wire
  import opened Validator
  import opened ValidatorRuns
  import opened RowBatches
  import opened Contexts
  import opened RowAcceptance
  import opened CaptureRows
  import opened RowStreams
  import opened RegisterSchemas

  /** The capture's options: announced features, whether block rows are on, which context fields the target provides. */
  datatype Config = Config(features: Features, blocks: bool, known: nat)

  datatype Life = Unused | Active | Gone

  /** One vCPU: its buffer, its latest context, its registers' widths and latest values. */
  datatype Vcpu = Vcpu(
    life: Life, batch: Batch, context: Option<Context>, contextSequence: nat,
    widths: seq<nat>, previous: seq<Option<seq<byte>>>, recorded: bool)

  /** A vCPU after some callback steps, and what it has sent meanwhile. */
  datatype Out = Out(v: Vcpu, sent: seq<Sent>)

  /** The span of the traced program's code and its entry point. */
  datatype Code = Code(first: u64, end: u64, entry: u64)

  datatype Act =
    | Start(registers: seq<Declared>)
    | Translate(code: Code)
    | Enter(pc: u64, context: Context, values: seq<seq<byte>>, rich: bool)   // a recorded block
    | Touch(access: Access, context: Context)                               // a recorded memory access
    | Syscall(pc: u64, values: seq<seq<byte>>)
    | Ask(sample: bool, pc: u64, values: seq<seq<byte>>, limit: nat)        // a system call that reads standard input
    | Flush                                                                 // idle callback or drain
    | Exit(sample: bool, pc: u64, context: Context, values: seq<seq<byte>>, rich: bool)

  // ---------------------------------------------------------------- callback steps

  /** `append`: fails when the sequence is used up. */
  function Put(c: Config, index: nat, o: Out, x: Item): Option<Out> {
    if o.v.batch.next >= MAX64 then None
    else Some(Out(o.v.(batch := Joining(o.v.batch, c.features.mixed, x)),
                  o.sent + MadeRoom(c.features, index, o.v.batch, x)))
  }

  /** `emit_context`: only a changed context is appended. */
  function PutContext(c: Config, index: nat, o: Out, pc: u64, context: Context): Option<Out> {
    if !c.features.addressContext || o.v.context == Some(context) then Some(o)
    else
      match Put(c, index, o, ContextRow(pc, context, c.known))
      case None => None
      case Some(p) => Some(p.(v := p.v.(context := Some(context), contextSequence := o.v.batch.next)))
  }

  /** `sample_registers` over the first `n` registers: a row for each that is new or has changed. */
  function PutRegisters(c: Config, index: nat, o: Out, pc: u64, checkpoint: nat, values: seq<seq<byte>>,
                        n: nat): Option<Out>
    requires n <= |values| == |o.v.previous|
    ensures var r := PutRegisters(c, index, o, pc, checkpoint, values, n); r.Some? ==> |r.value.v.previous| == |values|
  {
    if n == 0 then Some(o)
    else
      match PutRegisters(c, index, o, pc, checkpoint, values, n - 1)
      case None => None
      case Some(p) =>
        var id := n - 1;
        if p.v.previous[id] == Some(values[id]) then Some(p)
        else
          match Put(c, index, p, RegisterRow(pc, id, checkpoint, p.v.previous[id].None?, values[id]))
          case None => None
          case Some(q) => Some(q.(v := q.v.(previous := q.v.previous[id := Some(values[id])])))
  }

  function FlushOut(index: nat, o: Out): Out {
    Out(o.v.(batch := o.v.batch.(items := [])), o.sent + Drained(index, o.v.batch))
  }

  function SampleAll(c: Config, index: nat, o: Out, pc: u64, checkpoint: nat, values: seq<seq<byte>>): Option<Out> {
    if |values| != |o.v.previous| then None else PutRegisters(c, index, o, pc, checkpoint, values, |values|)
  }

  /** The block row, after which a full buffer is flushed. */
  function PutBlock(c: Config, index: nat, o: Out, pc: u64): Option<Out> {
    if !c.blocks then Some(o)
    else
      match Put(c, index, o, BlockRow(pc))
      case None => None
      case Some(p) => Some(if |p.v.batch.items| == MAX_ROWS then FlushOut(index, p) else p)
  }

  /** `record_block`: context, registers where admitted, block. */
  function EnterStep(c: Config, index: nat, v: Vcpu, act: Act): Option<Out>
    requires act.Enter?
  {
    match PutContext(c, index, Out(v, []), act.pc, act.context)
    case None => None
    case Some(o) =>
      match (if act.rich then SampleAll(c, index, o, act.pc, 1, act.values) else Some(o))
      case None => None
      case Some(p) =>
        match PutBlock(c, index, p, act.pc)
        case None => None
        case Some(q) => Some(q.(v := q.v.(recorded := true)))
  }

  /** `memory_access`: a changed context first, unless contexts are filtered; then the access. */
  function TouchStep(c: Config, index: nat, v: Vcpu, act: Act): Option<Out>
    requires act.Touch?
  {
    match (if c.features.contextFilter then Some(Out(v, []))
           else PutContext(c, index, Out(v, []), act.access.pc, act.context))
    case None => None
    case Some(o) => Put(c, index, o, MemoryRow(c.features, act.access, o.v.contextSequence))
  }

  /** `source_start`: the register schema is appended and flushed before anything else. */
  function StartStep(c: Config, index: nat, v: Vcpu, ds: seq<Declared>): Option<Out> {
    if !Admissible(ds) then None
    else
      var p := PutSchemas(c.features, index, v.batch, ds, |ds|);
      var w := v.(life := Active, batch := p.batch, widths := seq(|ds|, i requires 0 <= i < |ds| => ds[i].width),
                  previous := seq(|ds|, _ => None));
      Some(FlushOut(index, Out(w, p.sent)))
  }

  function AskFrame(index: nat, next: nat, limit: nat): Frame {
    Frame(Header(InputRequest, index, 0, next, limit, VERSION), [])
  }

  /** The rows of a system call that asks for input. */
  function AskRows(c: Config, index: nat, v: Vcpu, act: Act): Option<Out>
    requires act.Ask?
  {
    if act.sample then SampleAll(c, index, Out(v, []), act.pc, 2, act.values) else Some(Out(v, []))
  }

  function AskStep(c: Config, index: nat, v: Vcpu, act: Act): Option<Out>
    requires act.Ask?
  {
    match AskRows(c, index, v, act)
    case None => None
    case Some(o) =>
      var p := FlushOut(index, o);
      Some(p.(sent := p.sent + [Sent(AskFrame(index, p.v.batch.next, act.limit), [])]))
  }

  function EndFrame(index: nat, next: nat): Frame {
    Frame(Header(SourceEnd, index, 0, next, 0, VERSION), [])
  }

  /** The rows of the exit callback, if it may still sample. */
  function ExitRows(c: Config, index: nat, v: Vcpu, act: Act): Option<Out>
    requires act.Exit?
  {
    if !act.sample then Some(Out(v, []))
    else
      match PutContext(c, index, Out(v, []), act.pc, act.context)
      case None => None
      case Some(o) => if act.rich then SampleAll(c, index, o, act.pc, 3, act.values) else Some(o)
  }

  function ActStep(c: Config, index: nat, v: Vcpu, act: Act): Option<Out> {
    match act
    case Start(ds) => StartStep(c, index, v, ds)
    case Translate(_) => Some(Out(v, []))
    case Enter(_, _, _, _) => EnterStep(c, index, v, act)
    case Touch(_, _) => TouchStep(c, index, v, act)
    case Syscall(pc, values) => SampleAll(c, index, Out(v, []), pc, 2, values)
    case Ask(_, _, _, _) => AskStep(c, index, v, act)
    case Flush => Some(FlushOut(index, Out(v, [])))
    case Exit(_, _, _, _, _) =>
      match ExitRows(c, index, v, act)
      case None => None
      case Some(o) =>
        var p := FlushOut(index, o);
        Some(Out(p.v.(life := Gone), p.sent + [Sent(EndFrame(index, p.v.batch.next), [])]))
  }

  // ---------------------------------------------------------------- what the emulator may report

  predicate ValuesFit(v: Vcpu, values: seq<seq<byte>>) {
    |values| == |v.widths| && forall i :: 0 <= i < |values| ==> |values[i]| == v.widths[i]
  }

  predicate ContextFits(c: Config, context: Context) {
    c.features.addressContext ==> ValidMode(c.known, context)
  }

  /** Callbacks the emulator makes on this vCPU, with values of the announced shape. */
  predicate Legal(c: Config, v: Vcpu, act: Act) {
    match act
    case Start(ds) => v.life == Unused && Admissible(ds) && (c.features.registers <==> ds != [])
    case Translate(code) => v.life == Active && code.first < code.end
    case Enter(_, context, values, rich) =>
      v.life == Active && ContextFits(c, context) && ValuesFit(v, values) && (!c.features.contextFilter ==> rich)
    case Touch(access, context) =>
      v.life == Active && v.recorded && c.features.memory && Reported(c.features, access) && ContextFits(c, context)
    case Syscall(_, values) =>
      v.life == Active && !c.features.addressContext && ValuesFit(v, values) && (c.features.window ==> v.recorded)
    case Ask(sample, _, values, limit) =>
      v.life == Active && c.features.stdio && !c.features.addressContext && ValuesFit(v, values) &&
      0 < limit <= MAX_ACTION && sample == (v.widths != [] && (c.features.window ==> v.recorded))
    case Flush => v.life == Active
    case Exit(sample, _, context, values, rich) =>
      v.life == Active &&
      (sample ==>
         && v.widths != [] && ContextFits(c, context) && ValuesFit(v, values)
         && (!c.features.contextFilter ==> rich) && (c.features.window ==> v.recorded))
  }

  /** What the validator asks of a callback beyond that: printable names, and no input request before recording. */
  predicate Fine(act: Act) {
    match act
    case Start(ds) => AllPrintable(ds)
    case Ask(sample, _, values, _) => sample || values == []
    case _ => true
  }

  predicate AllFine(events: seq<Event>) {
    forall i :: 0 <= i < |events| ==> Fine(events[i].act)
  }

  /** All vCPUs, what is on the wire, and whether the code span is. */
  datatype Raw = Raw(config: Config, vcpus: seq<Vcpu>, wire: seq<Sent>, laid: bool)

  datatype Event = Event(index: nat, act: Act)

  function LayoutFrame(code: Code): (frame: Frame)
    ensures WellSized(frame)
  {
    Frame(Header(ExecutableLayout, 0, 1, 0, LAYOUT_BYTES, VERSION),
          Bytes(code.first, 8) + Bytes(code.end, 8) + Bytes(code.entry, 8))
  }

  /** The first translation announces the code span, where that is on. */
  function Announced(r: Raw, act: Act): seq<Sent> {
    if act.Translate? && r.config.features.executableLayout && !r.laid then [Sent(LayoutFrame(act.code), [])] else []
  }

  /** Nothing runs before something was translated. */
  predicate Placed(r: Raw, act: Act) {
    r.config.features.executableLayout && !r.laid ==> act.Start? || act.Translate?
  }

  function Step(r: Raw, e: Event): Option<Raw> {
    if e.index >= |r.vcpus| || !Legal(r.config, r.vcpus[e.index], e.act) || !Placed(r, e.act) then None
    else
      match ActStep(r.config, e.index, r.vcpus[e.index], e.act)
      case None => None
      case Some(o) =>
        Some(r.(vcpus := r.vcpus[e.index := o.v], wire := r.wire + o.sent + Announced(r, e.act),
                laid := r.laid || e.act.Translate?))
  }

  function RunEvents(r: Raw, events: seq<Event>): Option<Raw> {
    if events == [] then Some(r)
    else
      match RunEvents(r, events[..|events| - 1])
      case None => None
      case Some(t) => Step(t, events[|events| - 1])
  }

  // ---------------------------------------------------------------- the invariant

  /** The validator's register file is the plugin's: same registers, same widths, sampled where a value is known. */
  ghost predicate SameRegisters(v: Vcpu, regs: RegisterFile)
    requires |v.previous| == |v.widths|
  {
    && (forall id: nat :: id in regs <==> id < |v.widths|)
    && forall id :: 0 <= id < |v.widths| ==>
         regs[id].width == v.widths[id] && regs[id].sampled == v.previous[id].Some?
  }

  /** The source at the end of all appended rows is as the plugin remembers it. */
  ghost predicate Matches(c: Config, v: Vcpu, end: Source) {
    && |v.previous| == |v.widths| <= MAX_REGISTERS
    && (forall i :: 0 <= i < |v.widths| ==> 0 < v.widths[i] <= MAX_REGISTER_BYTES)
    && !end.ended && end.windowRows == 0 && (end.hasContext <==> v.context.Some?)
    && (end.hasContext ==> end.contextSequence == v.contextSequence <= MAX64)
    && (c.features.registers ==> end.registers.Some? && SameRegisters(v, end.registers.value))
    && (!c.features.registers ==> v.widths == [])
  }

  /** Between callbacks: data implies a complete baseline, a recorded vCPU has its context. */
  ghost predicate Settled(c: Config, v: Vcpu, end: Source) {
    var f := c.features;
    && Matches(c, v, end)
    && (f.registers && !f.contextFilter && (end.data || v.recorded) ==> AllSampled(v))
    && (v.recorded && f.addressContext ==> v.context.Some?)
    && (f.window && !v.recorded ==> NoneSampled(v))
  }

  ghost predicate NoneSampled(v: Vcpu) {
    forall i :: 0 <= i < |v.previous| ==> v.previous[i].None?
  }

  ghost predicate AllSampled(v: Vcpu) {
    forall i :: 0 <= i < |v.previous| ==> v.previous[i].Some?
  }

  lemma SampledIsComplete(v: Vcpu, regs: RegisterFile)
    requires |v.previous| == |v.widths| && SameRegisters(v, regs) && AllSampled(v)
    ensures BaselineComplete(Some(regs))
  {
  }

  // ---------------------------------------------------------------- one callback

  /** A capture the plugin's option checks let through, without reduction. */
  ghost predicate ConfigOk(c: Config, vcpus: nat) {
    && !c.features.observationReduction && (c.features.stdio ==> vcpus <= 1)
    && (c.features.systemMemory ==> c.features.addressContext) && c.known <= MAX64 && vcpus <= MAX_SOURCES
    && (c.features.contextFilter ==> !c.features.executableLayout && !c.features.stdio)
    && (c.features.transitionWindows ==> !c.features.executableLayout)
  }

  /** Midway through a callback. */
  ghost predicate OutOk(c: Config, s: State, index: nat, o: Out, end: Source)
    requires index < MAX_SOURCES
  {
    Leads(s, index, o.v.batch, o.sent, end) && Matches(c, o.v, end)
  }

  /** The stream a callback starts from. */
  ghost predicate Before(c: Config, s: State, index: nat) {
    Live(s) && Ready(c, s, index)
  }

  /** The stream a vCPU starts from: its schema may come before the code span. */
  ghost predicate Ready(c: Config, s: State, index: nat) {
    && Open(s) && s.features == c.features && index < MAX_SOURCES && ConfigOk(c, index + 1)
    && (c.features.stdio ==> index == 0)
  }

  lemma EndBound(c: Config, s: State, index: nat, o: Out, end: Source)
    requires index < MAX_SOURCES && OutOk(c, s, index, o, end)
    ensures end.next == o.v.batch.next
  {
    hide Valid, RawRows, AcceptAll, Accepted, Linked, OnlySource;
  }

  lemma PutShape(c: Config, index: nat, o: Out, x: Item)
    ensures var r := Put(c, index, o, x);
      && (r.Some? <==> o.v.batch.next < MAX64)
      && (r.Some? ==> r.value.v == o.v.(batch := r.value.v.batch))
  {
    hide Joining, MadeRoom;
  }

  /** Appending a row the source takes. */
  lemma PutOk(c: Config, s: State, index: nat, o: Out, end: Source, x: Item, next: Source, p: Out)
    requires Before(c, s, index) && Leads(s, index, o.v.batch, o.sent, end) && Put(c, index, o, x) == Some(p)
    requires RawRow(c.features, x) && SourceRow(c.features, index, end, x) == Some(next)
    ensures Leads(s, index, p.v.batch, p.sent, next) && p.v == o.v.(batch := p.v.batch)
  {
    hide Leads, Joining, MadeRoom, SourceRow, RawRow;
    PutLeads(s, index, o.v.batch, o.sent, end, x, next);
  }

  /** Rows that change neither context nor registers keep the match. */
  lemma PlainMatch(c: Config, v: Vcpu, batch: Batch, end: Source)
    requires Matches(c, v, end)
    ensures Matches(c, v.(batch := batch), end.(seen := true, data := true, next := end.next + 1))
  {
    hide SameRegisters;
    if c.features.registers { SameAs(v, v.(batch := batch), end.registers.value); }
  }

  lemma SameAs(v: Vcpu, w: Vcpu, regs: RegisterFile)
    requires |v.previous| == |v.widths| && w.previous == v.previous && w.widths == v.widths && SameRegisters(v, regs)
    ensures SameRegisters(w, regs)
  {
  }

  /** A changed context is appended and becomes the source's context. */
  lemma ContextPut(c: Config, s: State, index: nat, o: Out, end: Source, pc: u64,
                   context: Context) returns (next: Source)
    requires Before(c, s, index) && OutOk(c, s, index, o, end) && ContextFits(c, context)
    requires PutContext(c, index, o, pc, context).Some?
    ensures var p := PutContext(c, index, o, pc, context).value;
      && OutOk(c, s, index, p, next) && (c.features.addressContext ==> p.v.context.Some?)
      && p.v == o.v.(batch := p.v.batch, context := p.v.context, contextSequence := p.v.contextSequence)
  {
    hide Leads, ContextRow, Put, SourceRow, RawRow, ValidMode, SameRegisters;
    next := end;
    if c.features.addressContext && o.v.context != Some(context) {
      var x := ContextRow(pc, context, c.known);
      PutShape(c, index, o, x);
      EndBound(c, s, index, o, end);
      ContextFollows(c.features, index, end, pc, context, c.known);
      next := end.(hasContext := true, contextSequence := end.next, seen := true, data := true, next := end.next + 1);
      var p := Put(c, index, o, x).value;
      PutOk(c, s, index, o, end, x, next, p);
      if c.features.registers {
        SameAs(o.v, PutContext(c, index, o, pc, context).value.v, end.registers.value);
      }
    }
  }

  lemma CompleteBaseline(c: Config, v: Vcpu, end: Source)
    requires Matches(c, v, end) && (c.features.registers && !c.features.contextFilter ==> AllSampled(v))
    ensures c.features.registers && !c.features.contextFilter ==> BaselineComplete(end.registers)
  {
    if c.features.registers && !c.features.contextFilter { SampledIsComplete(v, end.registers.value); }
  }

  lemma BlockPut(c: Config, s: State, index: nat, o: Out, end: Source, pc: u64) returns (next: Source)
    requires Before(c, s, index) && OutOk(c, s, index, o, end) && PutBlock(c, index, o, pc).Some?
    requires c.features.addressContext ==> o.v.context.Some?
    requires c.features.registers && !c.features.contextFilter ==> AllSampled(o.v)
    ensures var p := PutBlock(c, index, o, pc).value; OutOk(c, s, index, p, next) && p.v == o.v.(batch := p.v.batch)
  {
    hide Leads, Matches, Drained, Put, AllSampled, BaselineComplete, OutOk, BlockRow;
    next := end;
    if c.blocks {
      OutMatches(c, s, index, o, end);
      CompleteBaseline(c, o.v, end);
      EndBound(c, s, index, o, end);
      PutShape(c, index, o, BlockRow(pc));
      BlockNext(c, s, index, o, end, pc);
      var p := Put(c, index, o, BlockRow(pc)).value;
      next := end.(seen := true, data := true, next := end.next + 1);
      PlainMatch(c, o.v, p.v.batch, end);
      MatchedOut(c, s, index, p, next);
      FlushOk(c, s, index, p, next);
    }
  }

  lemma MatchedOut(c: Config, s: State, index: nat, o: Out, end: Source)
    requires index < MAX_SOURCES && Leads(s, index, o.v.batch, o.sent, end) && Matches(c, o.v, end)
    ensures OutOk(c, s, index, o, end)
  {
  }

  lemma BlockNext(c: Config, s: State, index: nat, o: Out, end: Source, pc: u64)
    requires Before(c, s, index) && OutOk(c, s, index, o, end) && Put(c, index, o, BlockRow(pc)).Some?
    requires end.next < MAX64
    requires c.features.addressContext ==> o.v.context.Some?
    requires c.features.registers && !c.features.contextFilter ==> BaselineComplete(end.registers)
    ensures var p := Put(c, index, o, BlockRow(pc)).value;
      Leads(s, index, p.v.batch, p.sent, end.(seen := true, data := true, next := end.next + 1))
  {
    hide Leads, BlockRow, SourceRow, RawRow, SameRegisters, BaselineComplete, Put;
    BlockFollows(c.features, index, end, pc);
    PutOk(c, s, index, o, end, BlockRow(pc), end.(seen := true, data := true, next := end.next + 1),
          Put(c, index, o, BlockRow(pc)).value);
  }

  lemma TouchPut(c: Config, s: State, index: nat, o: Out, end: Source, a: Access, p: Out) returns (next: Source)
    requires Before(c, s, index) && OutOk(c, s, index, o, end) && c.features.memory && Reported(c.features, a)
    requires c.features.addressContext ==> o.v.context.Some?
    requires c.features.registers && !c.features.contextFilter ==> AllSampled(o.v)
    requires Put(c, index, o, MemoryRow(c.features, a, o.v.contextSequence)) == Some(p)
    ensures OutOk(c, s, index, p, next) && p.v == o.v.(batch := p.v.batch)
  {
    hide Leads, SourceRow, RawRow, SameRegisters, BaselineComplete, AllSampled, Reported, MemoryRow, Put;
    CompleteBaseline(c, o.v, end);
    EndBound(c, s, index, o, end);
    var row := MemoryRow(c.features, a, o.v.contextSequence);
    PutShape(c, index, o, row);
    next := end.(seen := true, data := true, next := end.next + 1);
    if c.features.systemMemory {
      MemoryFollows(c.features, index, end, a);
    } else {
      UnmappedFollows(c.features, index, end, a, o.v.contextSequence);
    }
    PutOk(c, s, index, o, end, row, next, p);
    PlainMatch(c, o.v, p.v.batch, end);
  }

  lemma NoMapping(f: Features, a: Access, x: nat, y: nat)
    requires !f.systemMemory
    ensures MemoryRow(f, a, x) == MemoryRow(f, a, y)
  {
    hide Bytes;
  }

  /** Without physical mappings the row names no context. */
  lemma UnmappedFollows(f: Features, index: nat, source: Source, a: Access, sequence: nat)
    requires !f.systemMemory && Reported(f, a) && f.memory
    requires (f.stdio ==> index == 0) && !source.ended && source.next < MAX64
    requires f.registers && !f.contextFilter ==> BaselineComplete(source.registers)
    ensures var x := MemoryRow(f, a, sequence);
      && RawRow(f, x)
      && SourceRow(f, index, source, x) == Some(source.(seen := true, data := true, next := source.next + 1))
  {
    hide Bytes, Load, BaselineComplete, PowerOfTwo;
    NoMapping(f, a, sequence, 0);
    var plain := source.(contextSequence := 0);
    MemoryFollows(f, index, plain, a);
    SameAccess(f, index, source, plain, MemoryRow(f, a, 0));
  }

  lemma SameAccess(f: Features, index: nat, source: Source, plain: Source, x: Item)
    requires !f.systemMemory && RawRow(f, x) && x.kind == Memory && plain == source.(contextSequence := 0)
    requires SourceRow(f, index, plain, x) == Some(plain.(seen := true, data := true, next := plain.next + 1))
    requires !source.ended
    ensures SourceRow(f, index, source, x) == Some(source.(seen := true, data := true, next := source.next + 1))
  {
    hide BaselineComplete, Load, PowerOfTwo, RawRow;
    MemoryStrides(f, [x]);
  }

  /** The first `n` registers: each has a value afterwards, its first row the baseline. */
  lemma {:induction false} RegistersPut(c: Config, s: State, index: nat, o: Out, end: Source, pc: u64, checkpoint: nat,
                                        values: seq<seq<byte>>, n: nat) returns (next: Source)
    requires Before(c, s, index) && OutOk(c, s, index, o, end) && 1 <= checkpoint <= 3
    requires ValuesFit(o.v, values) && n <= |values| == |o.v.previous|
    requires c.features.addressContext && n > 0 ==> o.v.context.Some?
    requires PutRegisters(c, index, o, pc, checkpoint, values, n).Some?
    ensures var p := PutRegisters(c, index, o, pc, checkpoint, values, n).value;
      && OutOk(c, s, index, p, next) && p.v == o.v.(batch := p.v.batch, previous := p.v.previous)
      && (forall i :: 0 <= i < n ==> p.v.previous[i].Some?)
      && (forall i :: n <= i < |values| ==> p.v.previous[i] == o.v.previous[i])
  {
    hide OutOk, Put, SourceRow, RegisterRow;
    if n == 0 {
      next := end;
    } else {
      var mid := RegistersPut(c, s, index, o, end, pc, checkpoint, values, n - 1);
      var p := PutRegisters(c, index, o, pc, checkpoint, values, n - 1).value;
      if p.v.previous[n - 1] == Some(values[n - 1]) {
        next := mid;
      } else {
        PutShape(c, index, p, RegisterRow(pc, n - 1, checkpoint, p.v.previous[n - 1].None?, values[n - 1]));
        next := RegisterPut(c, s, index, p, mid, pc, n - 1, checkpoint, values[n - 1]);
      }
    }
  }

  lemma RegisterPut(c: Config, s: State, index: nat, o: Out, end: Source, pc: u64, id: nat, checkpoint: nat,
                    value: seq<byte>) returns (next: Source)
    requires Before(c, s, index) && OutOk(c, s, index, o, end) && 1 <= checkpoint <= 3
    requires id < |o.v.previous| == |o.v.widths| && |value| == o.v.widths[id]
    requires c.features.addressContext ==> o.v.context.Some?
    requires Put(c, index, o, RegisterRow(pc, id, checkpoint, o.v.previous[id].None?, value)).Some?
    ensures var q := Put(c, index, o, RegisterRow(pc, id, checkpoint, o.v.previous[id].None?, value)).value;
      OutOk(c, s, index, q.(v := q.v.(previous := q.v.previous[id := Some(value)])), next)
  {
    hide Leads, SourceRow, RawRow, RegisterRow, Put;
    EndBound(c, s, index, o, end);
    var regs := end.registers.value;
    KnownRegister(o.v, regs, id);
    hide SameRegisters;
    var x := RegisterRow(pc, id, checkpoint, o.v.previous[id].None?, value);
    PutShape(c, index, o, x);
    RegisterFollows(c.features, index, end, pc, id, checkpoint, value);
    var after := regs[id := regs[id].(sampled := true)];
    next := end.(registers := Some(after), seen := true, data := true, next := end.next + 1);
    var q := Put(c, index, o, x).value;
    PutOk(c, s, index, o, end, x, next, q);
    StillSame(o.v, regs, id, value);
    SameAs(o.v.(previous := o.v.previous[id := Some(value)]), q.v.(previous := q.v.previous[id := Some(value)]), after);
  }

  lemma KnownRegister(v: Vcpu, regs: RegisterFile, id: nat)
    requires |v.previous| == |v.widths| && SameRegisters(v, regs) && id < |v.widths|
    ensures id in regs && regs[id].width == v.widths[id] && regs[id].sampled == v.previous[id].Some?
  {
  }

  lemma StillSame(v: Vcpu, regs: RegisterFile, id: nat, value: seq<byte>)
    requires |v.previous| == |v.widths| && SameRegisters(v, regs) && id < |v.widths|
    ensures SameRegisters(v.(previous := v.previous[id := Some(value)]), regs[id := regs[id].(sampled := true)])
  {
  }

  lemma SampleOk(c: Config, s: State, index: nat, o: Out, end: Source, pc: u64, checkpoint: nat, values: seq<seq<byte>>)
    returns (next: Source)
    requires Before(c, s, index) && OutOk(c, s, index, o, end) && 1 <= checkpoint <= 3 && ValuesFit(o.v, values)
    requires c.features.addressContext ==> o.v.context.Some?
    requires SampleAll(c, index, o, pc, checkpoint, values).Some?
    ensures var p := SampleAll(c, index, o, pc, checkpoint, values).value;
      OutOk(c, s, index, p, next) && p.v == o.v.(batch := p.v.batch, previous := p.v.previous) && AllSampled(p.v)
  {
    hide Leads, PutRegisters, Put;
    next := RegistersPut(c, s, index, o, end, pc, checkpoint, values, |values|);
  }

  /** The rows of a recorded block. */
  lemma EnterOk(c: Config, s: State, index: nat, v: Vcpu, act: Act, end: Source, o: Out) returns (next: Source)
    requires Before(c, s, index) && OutOk(c, s, index, Out(v, []), end) && act.Enter? && Legal(c, v, act)
    requires EnterStep(c, index, v, act) == Some(o)
    ensures OutOk(c, s, index, o, next) && Settled(c, o.v, next) && o.v.life == v.life
  {
    hide OutOk, PutContext, SampleAll, PutBlock, Matches, ContextFits, AllSampled;
    var mid := ContextPut(c, s, index, Out(v, []), end, act.pc, act.context);
    var p := PutContext(c, index, Out(v, []), act.pc, act.context).value;
    var q := p;
    if act.rich {
      mid := SampleOk(c, s, index, p, mid, act.pc, 1, act.values);
      q := SampleAll(c, index, p, act.pc, 1, act.values).value;
    }
    next := BlockPut(c, s, index, q, mid, act.pc);
    RecordedOk(c, s, index, PutBlock(c, index, q, act.pc).value, next);
    BlockSamples(c, index, q, act.pc);
  }

  lemma BlockSamples(c: Config, index: nat, o: Out, pc: u64)
    requires PutBlock(c, index, o, pc).Some?
    ensures var p := PutBlock(c, index, o, pc).value.v;
      p.previous == o.v.previous && (AllSampled(o.v) ==> AllSampled(p.(recorded := true)))
  {
    hide Joining, MadeRoom, Drained;
  }

  lemma RecordedOk(c: Config, s: State, index: nat, o: Out, end: Source)
    requires index < MAX_SOURCES && OutOk(c, s, index, o, end)
    ensures OutOk(c, s, index, o.(v := o.v.(recorded := true)), end) && Matches(c, o.v.(recorded := true), end)
  {
    hide Leads, SameRegisters;
    if c.features.registers { SameAs(o.v, o.v.(recorded := true), end.registers.value); }
  }

  lemma TouchOk(c: Config, s: State, index: nat, v: Vcpu, act: Act, end: Source, o: Out) returns (next: Source)
    requires Before(c, s, index) && OutOk(c, s, index, Out(v, []), end) && Settled(c, v, end)
    requires act.Touch? && Legal(c, v, act) && TouchStep(c, index, v, act) == Some(o)
    ensures OutOk(c, s, index, o, next) && Settled(c, o.v, next) && o.v.life == v.life
  {
    hide OutOk, PutContext, Put, Matches, ContextFits, MemoryRow, Reported;
    var p, mid := Out(v, []), end;
    if !c.features.contextFilter {
      mid := ContextPut(c, s, index, p, end, act.access.pc, act.context);
      p := PutContext(c, index, p, act.access.pc, act.context).value;
    }
    next := TouchPut(c, s, index, p, mid, act.access, o);
    OutMatches(c, s, index, o, next);
  }

  lemma OutMatches(c: Config, s: State, index: nat, o: Out, end: Source)
    requires index < MAX_SOURCES && OutOk(c, s, index, o, end)
    ensures Matches(c, o.v, end) && Leads(s, index, o.v.batch, o.sent, end)
  {
  }

  lemma FlushOk(c: Config, s: State, index: nat, o: Out, end: Source)
    requires Before(c, s, index) && OutOk(c, s, index, o, end)
    ensures OutOk(c, s, index, FlushOut(index, o), end) && Matches(c, FlushOut(index, o).v, end)
  {
    hide Leads, SameRegisters, Drained;
    FlushLeads(s, index, o.v.batch, o.sent, end);
    if c.features.registers { SameAs(o.v, FlushOut(index, o).v, end.registers.value); }
  }

  /** The rows of an exit: whatever was appended, data still implies a complete baseline. */
  lemma ExitOk(c: Config, s: State, index: nat, v: Vcpu, act: Act, end: Source, o: Out) returns (next: Source)
    requires Before(c, s, index) && OutOk(c, s, index, Out(v, []), end) && Settled(c, v, end)
    requires act.Exit? && Legal(c, v, act) && ExitRows(c, index, v, act) == Some(o)
    ensures OutOk(c, s, index, o, next) && Settled(c, o.v, next)
  {
    hide OutOk, PutContext, SampleAll, Matches, ContextFits;
    next := end;
    if act.sample {
      next := ContextPut(c, s, index, Out(v, []), end, act.pc, act.context);
      var p := PutContext(c, index, Out(v, []), act.pc, act.context).value;
      if act.rich { next := SampleOk(c, s, index, p, next, act.pc, 3, act.values); }
    }
    OutMatches(c, s, index, o, next);
  }

  /** A callback that only appends rows or flushes. */
  lemma ActOk(c: Config, s: State, index: nat, v: Vcpu, act: Act, end: Source, o: Out) returns (next: Source)
    requires Before(c, s, index) && OutOk(c, s, index, Out(v, []), end) && Settled(c, v, end) && v.life == Active
    requires !act.Start? && !act.Ask? && !act.Exit? && Legal(c, v, act) && ActStep(c, index, v, act) == Some(o)
    ensures OutOk(c, s, index, o, next) && Settled(c, o.v, next) && o.v.life == Active
  {
    hide OutOk, EnterStep, TouchStep, SampleAll, FlushOut, Matches, ContextFits, Reported;
    match act
    case Translate(_) => next := end;
    case Enter(_, _, _, _) => next := EnterOk(c, s, index, v, act, end, o);
    case Touch(_, _) => next := TouchOk(c, s, index, v, act, end, o);
    case Syscall(pc, values) =>
      next := SampleOk(c, s, index, Out(v, []), end, pc, 2, values);
      OutMatches(c, s, index, o, next);
    case Flush =>
      next := end;
      FlushOk(c, s, index, Out(v, []), end);
      FlushKeeps(index, Out(v, []));
  }

  lemma FlushKeeps(index: nat, o: Out)
    ensures FlushOut(index, o).v == o.v.(batch := FlushOut(index, o).v.batch)
    ensures FlushOut(index, o).v.batch.items == [] && FlushOut(index, o).v.batch.next == o.v.batch.next
  {
    hide Drained;
  }

  predicate CpuGone(source: Source) {
    source.ended && source.seen && source.windowRows == 0
  }

  // ---------------------------------------------------------------- the terminator

  /** A terminator after the last row is accepted if data implies a complete baseline. */
  lemma EndAccepted(s: State, index: nat, next: nat)
    requires Live(s) && index < MAX_SOURCES && !s.features.observationReduction && (s.features.stdio ==> index == 0)
    requires var src := s.sources[index];
      && !src.ended && src.next == next <= MAX64
      && (s.features.registers && !s.features.contextFilter && src.data ==> BaselineComplete(src.registers))
    ensures WellSized(EndFrame(index, next))
    ensures Accept(s, EndFrame(index, next)) ==
      Some(SetSource(s, index, s.sources[index].(seen := true, data := true, ended := true)).(sourceDataSeen := true))
  {
    hide AcceptSingle, BaselineComplete;
    var frame := EndFrame(index, next);
    Dispatch(s, frame.header, frame.payload);
  }

  /** A request for input needs a complete baseline. */
  lemma AskDecided(s: State, index: nat, next: nat, limit: nat)
    requires Live(s) && index == 0 && s.features.stdio && 0 < limit <= MAX_ACTION
    requires !s.sources[index].ended && s.sources[index].next == next <= MAX64
    ensures WellSized(AskFrame(index, next, limit))
    ensures Accept(s, AskFrame(index, next, limit)) ==
      if s.features.registers && !s.features.contextFilter && !BaselineComplete(s.sources[index].registers) then None
      else Some(SetSource(s, index, s.sources[index].(seen := true, data := true)).(sourceDataSeen := true))
  {
    hide AcceptSingle, BaselineComplete;
    var frame := AskFrame(index, next, limit);
    Dispatch(s, frame.header, frame.payload);
  }

  /** The whole exit: its rows, the flush and the terminator. */
  lemma ExitEnds(c: Config, s: State, index: nat, o: Out, end: Source)
    requires Before(c, s, index) && OutOk(c, s, index, o, end) && Settled(c, o.v, end) && o.v.batch.items == []
    ensures var sent := o.sent + [Sent(EndFrame(index, o.v.batch.next), [])];
      var r := AcceptAll(s, Frames(sent));
      && Sized(Frames(sent)) && (r.Some? <==> Accepted(s, sent))
      && (r.Some? ==> OnlySource(s, r.value, index, MemorySent(sent)) && CpuGone(r.value.sources[index]))
  {
    var x := Sent(EndFrame(index, o.v.batch.next), []);
    hide Valid, Follow, AcceptAll, Apart, MemorySent, MemoryCount, NoTwins, Accept, Frames, SameRegisters,
      BaselineComplete, FilterFull, EndFrame;
    SentAppend(o.sent, x);
    NoCounts();
    EndSized(index, o.v.batch.next);
    OneMoreFrame(s, Frames(o.sent), x.frame);
    var r := AcceptAll(s, Frames(o.sent));
    if r.Some? {
      NothingFollows(s.features, index, r.value.sources[index]);
      SourceLive(s, r.value, index, MemorySent(o.sent));
      CompleteData(c, o.v, end);
      EndBound(c, s, index, o, end);
      BatchBound(c.features, o.v.batch, end);
      EndAccepted(r.value, index, o.v.batch.next);
    }
  }

  /** The whole request for input: its rows, the flush and the request. */
  lemma AskEnds(c: Config, s: State, index: nat, o: Out, end: Source, limit: nat, ok: bool)
    requires Before(c, s, index) && OutOk(c, s, index, o, end) && Settled(c, o.v, end) && o.v.batch.items == []
    requires c.features.stdio && 0 < limit <= MAX_ACTION
    requires ok <==> (c.features.registers ==> BaselineComplete(end.registers))
    ensures var sent := o.sent + [Sent(AskFrame(index, o.v.batch.next, limit), [])];
      var r := AcceptAll(s, Frames(sent));
      && Sized(Frames(sent)) && (r.Some? <==> Accepted(s, sent) && ok)
      && (r.Some? ==> r.value.features == c.features && OnlySource(s, r.value, index, MemorySent(sent))
                      && Link(c, r.value, index, o.v, end.(seen := true, data := true)))
  {
    var x := Sent(AskFrame(index, o.v.batch.next, limit), []);
    hide Valid, RawRows, Follow, AcceptAll, Apart, MemorySent, MemoryCount, NoTwins, Accept, Frames, SameRegisters,
      BaselineComplete, FilterFull, AskFrame, AllSampled, NoneSampled;
    SentAppend(o.sent, x);
    NoCounts();
    AskSized(index, o.v.batch.next, limit);
    OneMoreFrame(s, Frames(o.sent), x.frame);
    var r := AcceptAll(s, Frames(o.sent));
    if r.Some? {
      NothingFollows(s.features, index, r.value.sources[index]);
      SourceLive(s, r.value, index, MemorySent(o.sent));
      EndBound(c, s, index, o, end);
      BatchBound(c.features, o.v.batch, end);
      AskDecided(r.value, index, o.v.batch.next, limit);
      if ok { AskLinks(c, s, r.value, index, o.v, end, MemorySent(o.sent)); }
    }
  }

  lemma AskSized(index: nat, next: nat, limit: nat)
    ensures WellSized(AskFrame(index, next, limit))
  {
  }

  lemma AskLinks(c: Config, s: State, t: State, index: nat, v: Vcpu, end: Source, rows: nat)
    requires s.features == c.features && index < MAX_SOURCES && OnlySource(s, t, index, rows)
    requires Settled(c, v, end) && v.batch.items == [] && Buffered(c.features, v.batch, end) && t.sources[index] == end
    requires Linked(t, index, v.batch, end) && (c.features.registers ==> BaselineComplete(end.registers))
    ensures var u := SetSource(t, index, end.(seen := true, data := true)).(sourceDataSeen := true);
      && u.features == c.features && OnlySource(s, u, index, rows)
      && Link(c, u, index, v, end.(seen := true, data := true))
  {
    var next := end.(seen := true, data := true);
    if c.features.registers { CompleteIsSampled(v, end.registers.value); }
    NothingFollows(c.features, index, next);
    hide Valid, RawRows, Follow, SameRegisters, BaselineComplete, AllSampled, NoneSampled;
    assert s.sources[index := t.sources[index]][index := next] == s.sources[index := next];
  }

  lemma CompleteIsSampled(v: Vcpu, regs: RegisterFile)
    requires |v.previous| == |v.widths| && SameRegisters(v, regs) && BaselineComplete(Some(regs))
    ensures AllSampled(v)
  {
  }

  lemma EndSized(index: nat, next: nat)
    ensures WellSized(EndFrame(index, next))
  {
  }

  lemma BatchBound(f: Features, b: Batch, end: Source)
    requires Buffered(f, b, end)
    ensures b.next <= MAX64
  {
    hide Payload, Fits, RawRow;
  }

  lemma NoCounts()
    ensures MemoryCount([]) == 0 && NoTwins([])
  {
  }

  lemma CompleteData(c: Config, v: Vcpu, end: Source)
    requires Settled(c, v, end)
    ensures c.features.registers && !c.features.contextFilter && end.data ==> BaselineComplete(end.registers)
  {
    if c.features.registers && !c.features.contextFilter && end.data { SampledIsComplete(v, end.registers.value); }
  }

  // ---------------------------------------------------------------- all vCPUs

  ghost predicate Link(c: Config, s: State, index: nat, v: Vcpu, end: Source)
    requires s.features == c.features && index < MAX_SOURCES
  {
    Buffered(c.features, v.batch, end) && Linked(s, index, v.batch, end) && Settled(c, v, end)
  }

  const FRESH: Vcpu := Vcpu(Unused, Batch(Blocks, 0, []), None, 0, [], [], false)

  /** A source the stream has heard nothing of. */
  predicate Silent(source: Source) {
    && !source.seen && !source.data && !source.ended && source.next == 0 && !source.hasContext
    && source.registers == None && source.windowRows == 0
  }

  ghost predicate CpuTracks(c: Config, s: State, index: nat, v: Vcpu)
    requires s.features == c.features && index < MAX_SOURCES
  {
    match v.life
    case Unused => v == FRESH && Silent(s.sources[index])
    case Active => exists end: Source :: Link(c, s, index, v, end)
    case Gone => CpuGone(s.sources[index])
  }

  /** The stream has the code span exactly once it was announced, and no rows before. */
  predicate Spanned(s: State, r: Raw) {
    s.features.executableLayout ==> s.layoutSeen == r.laid && (s.sourceDataSeen ==> r.laid)
  }

  /** The stream has taken every frame on the wire and agrees with every vCPU. */
  ghost predicate Tracks(s: State, r: Raw) {
    && Open(s) && s.features == r.config.features && ConfigOk(r.config, |r.vcpus|) && Spanned(s, r)
    && (forall i :: 0 <= i < |r.vcpus| ==> CpuTracks(r.config, s, i, r.vcpus[i]))
    && forall i :: |r.vcpus| <= i < MAX_SOURCES ==> Silent(s.sources[i])
  }

  lemma BeforeAct(s: State, r: Raw, index: nat)
    requires Tracks(s, r) && index < |r.vcpus|
    ensures Ready(r.config, s, index)
    ensures (r.config.features.executableLayout ==> r.laid) ==> Before(r.config, s, index)
  {
    hide CpuTracks;
  }

  lemma LinkOut(c: Config, s: State, index: nat, v: Vcpu, end: Source)
    requires s.features == c.features && index < MAX_SOURCES && Link(c, s, index, v, end)
    ensures OutOk(c, s, index, Out(v, []), end) && Settled(c, v, end)
  {
    hide Leads, Valid, RawRows, Follow, SameRegisters;
    LeadsStart(s, index, v.batch, end);
  }

  lemma OutLink(c: Config, s: State, t: State, index: nat, o: Out, end: Source)
    requires s.features == c.features && index < MAX_SOURCES && OutOk(c, s, index, o, end) && Settled(c, o.v, end)
    requires Sized(Frames(o.sent)) && AcceptAll(s, Frames(o.sent)) == Some(t)
    ensures t.features == c.features && OnlySource(s, t, index, MemorySent(o.sent)) && Link(c, t, index, o.v, end)
  {
    hide Valid, RawRows, Follow, SameRegisters, AcceptAll, MemorySent;
  }

  /** Another vCPU is untouched by a step. */
  lemma OtherTracks(c: Config, s: State, t: State, index: nat, j: nat, v: Vcpu, rows: nat)
    requires s.features == c.features && index < MAX_SOURCES && j < MAX_SOURCES && j != index
    requires OnlySource(s, t, index, rows) && CpuTracks(c, s, j, v)
    ensures t.features == c.features && t.sources[j] == s.sources[j] && CpuTracks(c, t, j, v)
  {
    hide Valid, RawRows, Follow, SameRegisters;
    if v.life == Active {
      var end: Source :| Link(c, s, j, v, end);
      assert Link(c, t, j, v, end);
    }
  }

  /** One vCPU moved on, and the stream with it. */
  ghost predicate Moved(c: Config, s: State, t: State, index: nat, o: Out)
    requires index < MAX_SOURCES
  {
    t.features == c.features && OnlySource(s, t, index, MemorySent(o.sent)) && CpuTracks(c, t, index, o.v)
  }

  /** What one vCPU's step sends, and where it leaves that vCPU. */
  lemma CpuStep(c: Config, s: State, index: nat, v: Vcpu, act: Act, o: Out)
    requires Ready(c, s, index) && CpuTracks(c, s, index, v) && Legal(c, v, act)
    requires act.Start? || Live(s)
    requires ActStep(c, index, v, act) == Some(o)
    ensures Sized(Frames(o.sent))
    ensures var r := AcceptAll(s, Frames(o.sent));
      && (r.Some? <==> Accepted(s, o.sent) && Fine(act))
      && (r.Some? ==> Moved(c, s, r.value, index, o) && (act.Start? ==> r.value.sourceDataSeen == s.sourceDataSeen))
  {
    hide Ready, Live, Moved, CpuTracks, ActStep, AcceptAll, Frames, Accepted, AllPrintable;
    if act.Start? {
      StartMoves(c, s, index, v, act.registers, o);
    } else {
      BeforeIs(c, s, index);
      hide Before;
      if act.Exit? {
        ExitMoves(c, s, index, v, act, o);
      } else if act.Ask? {
        AskMoves(c, s, index, v, act, o);
      } else {
        LiveMoves(c, s, index, v, act, o);
      }
    }
  }

  lemma BeforeIs(c: Config, s: State, index: nat)
    requires Ready(c, s, index) && Live(s)
    ensures Before(c, s, index)
  {
  }

  /** A vCPU that starts: its schema is accepted exactly when the names are printable. */
  lemma StartMoves(c: Config, s: State, index: nat, v: Vcpu, ds: seq<Declared>, o: Out)
    requires Ready(c, s, index) && CpuTracks(c, s, index, v) && Legal(c, v, Start(ds))
    requires ActStep(c, index, v, Start(ds)) == Some(o)
    ensures Sized(Frames(o.sent))
    ensures var r := AcceptAll(s, Frames(o.sent));
      && (r.Some? <==> Accepted(s, o.sent) && AllPrintable(ds))
      && (r.Some? ==> Moved(c, s, r.value, index, o) && r.value.sourceDataSeen == s.sourceDataSeen)
  {
    hide Admissible, AcceptAll, AllPrintable, Moved, PutSchemas, Drained;
    var p := PutSchemas(c.features, index, FRESH.batch, ds, |ds|);
    if c.features.registers {
      SetupAccepted(s, index, FRESH.batch, ds);
      NoRoomNeeded(s);
      if AllPrintable(ds) { DeclaredMoves(c, s, index, ds, o); }
    } else {
      NoSchema(c, index);
      PlainMoves(c, s, index, o);
      assert Frames([]) == [];
      NoRoomNeeded(s);
      AcceptsNothing(s);
    }
  }

  lemma AcceptsNothing(s: State)
    ensures AcceptAll(s, []) == Some(s) && AllPrintable([]) && Apart([]) && MemorySent([]) == 0
  {
  }

  lemma NoRoomNeeded(s: State)
    ensures !FilterFull(s, 0)
  {
  }

  lemma NoSchema(c: Config, index: nat)
    ensures Admissible([])
    ensures PutSchemas(c.features, index, FRESH.batch, [], 0) == Setup(FRESH.batch, [])
    ensures StartStep(c, index, FRESH, []) == Some(Out(FRESH.(life := Active), []))
  {
    var ds: seq<Declared> := [];
    var widths := seq(|ds|, i requires 0 <= i < |ds| => ds[i].width);
    var previous: seq<Option<seq<byte>>> := seq(|ds|, _ => None);
    var sent: seq<Sent> := [];
    assert widths == [] && previous == [] && sent + sent == sent;
  }

  lemma {:induction false} PlainMoves(c: Config, s: State, index: nat, o: Out)
    requires Ready(c, s, index) && Silent(s.sources[index]) && !c.features.registers
    requires o == Out(FRESH.(life := Active), [])
    ensures Moved(c, s, s, index, o)
  {
    NoItems();
    hide Grouped, RunsBytes, Joined;
    var end := s.sources[index];
    assert Linked(s, index, o.v.batch, end);
    assert Link(c, s, index, o.v, end);
    assert s.sources[index := s.sources[index]] == s.sources;
  }

  /** The stream has taken the schema and knows the vCPU's registers. */
  lemma {:induction false} DeclaredMoves(c: Config, s: State, index: nat, ds: seq<Declared>, o: Out)
    requires Ready(c, s, index) && Silent(s.sources[index]) && c.features.registers && Admissible(ds) && ds != []
    requires MemorySent(o.sent) == 0
    requires o.v == FRESH.(life := Active, batch := Batch(RegisterSchema, 0, []),
                           widths := seq(|ds|, i requires 0 <= i < |ds| => ds[i].width),
                           previous := seq(|ds|, _ => None))
    ensures Moved(c, s, Declares(s, index, ds, |ds|), index, o)
  {
    var t := Declares(s, index, ds, |ds|);
    var end := t.sources[index];
    NoItems();
    NothingFollows(c.features, index, end);
    hide Grouped, RunsBytes, Joined, Follow, MemorySent;
    SameFile(ds, o.v);
    assert Linked(t, index, o.v.batch, end);
    assert Link(c, t, index, o.v, end);
  }

  lemma SameFile(ds: seq<Declared>, v: Vcpu)
    requires Admissible(ds) && |v.widths| == |v.previous| == |ds|
    requires forall i :: 0 <= i < |ds| ==> v.widths[i] == ds[i].width && v.previous[i].None?
    ensures SameRegisters(v, FileOf(ds, |ds|)) && |v.widths| <= MAX_REGISTERS && NoneSampled(v)
    ensures forall i :: 0 <= i < |v.widths| ==> 0 < v.widths[i] <= MAX_REGISTER_BYTES
  {
    hide Padded;
    var regs := FileOf(ds, |ds|);
    forall i | 0 <= i < |ds| ensures 0 < ds[i].width <= MAX_REGISTER_BYTES { assert Admitted(ds[i]); }
    assert forall id: nat :: id in regs <==> id < |v.widths|;
    forall id | 0 <= id < |v.widths|
      ensures regs[id].width == v.widths[id] && regs[id].sampled == v.previous[id].Some?
    {
      assert id in regs && regs[id] == Register(ds[id].width, Padded(ds[id].name), false);
    }
  }

  lemma LiveMoves(c: Config, s: State, index: nat, v: Vcpu, act: Act, o: Out)
    requires Before(c, s, index) && CpuTracks(c, s, index, v) && Legal(c, v, act)
    requires ActStep(c, index, v, act) == Some(o)
    requires !act.Start? && !act.Ask? && !act.Exit?
    ensures Sized(Frames(o.sent))
    ensures var r := AcceptAll(s, Frames(o.sent));
      && (r.Some? <==> Accepted(s, o.sent))
      && (r.Some? ==> Moved(c, s, r.value, index, o))
  {
    ActiveLegal(c, v, act);
    hide Settled, Legal, ActStep, OutOk, Link, AcceptAll, MemorySent, Accepted, OnlySource;
    var end: Source :| Link(c, s, index, v, end);
    LinkOut(c, s, index, v, end);
    var next := ActOk(c, s, index, v, act, end, o);
    OutAccepted(c, s, index, o, next);
    var r := AcceptAll(s, Frames(o.sent));
    if r.Some? { OutLink(c, s, r.value, index, o, next); }
  }

  lemma ActiveLegal(c: Config, v: Vcpu, act: Act)
    requires Legal(c, v, act) && !act.Start?
    ensures v.life == Active
  {
    hide ContextFits, ValuesFit, Reported;
  }

  lemma OutAccepted(c: Config, s: State, index: nat, o: Out, end: Source)
    requires index < MAX_SOURCES && OutOk(c, s, index, o, end)
    ensures Sized(Frames(o.sent)) && (AcceptAll(s, Frames(o.sent)).Some? <==> Accepted(s, o.sent))
  {
    hide Valid, RawRows, Follow, SameRegisters, AcceptAll, MemorySent, Frames;
  }

  lemma ExitMoves(c: Config, s: State, index: nat, v: Vcpu, act: Act, o: Out)
    requires Before(c, s, index) && CpuTracks(c, s, index, v) && Legal(c, v, act)
    requires ActStep(c, index, v, act) == Some(o)
    requires act.Exit?
    ensures Sized(Frames(o.sent))
    ensures var r := AcceptAll(s, Frames(o.sent));
      && (r.Some? <==> Accepted(s, o.sent))
      && (r.Some? ==> Moved(c, s, r.value, index, o))
  {
    hide Legal, OutOk, Link, AcceptAll, MemorySent, Accepted, Frames, ActStep, Settled, OnlySource, CpuGone, Live,
      ConfigOk;
    ActiveLegal(c, v, act);
    var end: Source :| Link(c, s, index, v, end);
    LinkOut(c, s, index, v, end);
    var p := ExitShape(c, index, v, act, o);
    var next := ExitOk(c, s, index, v, act, end, p);
    FlushSettled(c, s, index, p, next);
    ExitEnds(c, s, index, FlushOut(index, p), next);
    var r := AcceptAll(s, Frames(o.sent));
    if r.Some? { SourceFeatures(s, r.value, index, MemorySent(o.sent)); }
  }

  /** A request for input is accepted exactly when registers were sampled or there are none. */
  lemma AskMoves(c: Config, s: State, index: nat, v: Vcpu, act: Act, o: Out)
    requires Before(c, s, index) && CpuTracks(c, s, index, v) && Legal(c, v, act)
    requires ActStep(c, index, v, act) == Some(o)
    requires act.Ask?
    ensures Sized(Frames(o.sent))
    ensures var r := AcceptAll(s, Frames(o.sent));
      && (r.Some? <==> Accepted(s, o.sent) && Fine(act))
      && (r.Some? ==> Moved(c, s, r.value, index, o))
  {
    ActiveLegal(c, v, act);
    AskLegal(c, v, act);
    hide Legal, OutOk, Link, AcceptAll, MemorySent, Accepted, Frames, ActStep, Settled, OnlySource, Live, ConfigOk,
      Ready, Before;
    var end: Source :| Link(c, s, index, v, end);
    LinkOut(c, s, index, v, end);
    var p := AskShape(c, index, v, act, o);
    var next := AskOk(c, s, index, v, act, end, p);
    FlushSettled(c, s, index, p, next);
    AskEnds(c, s, index, FlushOut(index, p), next, act.limit, Fine(act));
    var r := AcceptAll(s, Frames(o.sent));
    if r.Some? { assert Link(c, r.value, index, o.v, next.(seen := true, data := true)); }
  }

  lemma AskLegal(c: Config, v: Vcpu, act: Act)
    requires act.Ask? && Legal(c, v, act)
    ensures c.features.stdio && !c.features.addressContext && ValuesFit(v, act.values) && 0 < act.limit <= MAX_ACTION
    ensures act.sample == (v.widths != [] && (c.features.window ==> v.recorded))
  {
  }

  lemma AskShape(c: Config, index: nat, v: Vcpu, act: Act, o: Out) returns (p: Out)
    requires act.Ask? && ActStep(c, index, v, act) == Some(o)
    ensures AskRows(c, index, v, act) == Some(p)
    ensures var q := FlushOut(index, p);
      o.v == q.v && o.sent == q.sent + [Sent(AskFrame(index, q.v.batch.next, act.limit), [])] && q.v.batch.items == []
  {
    hide AskRows, Drained, AskFrame;
    p := AskRows(c, index, v, act).value;
  }

  /** The rows of a request: a complete baseline exactly when they were sampled or there are none. */
  lemma AskOk(c: Config, s: State, index: nat, v: Vcpu, act: Act, end: Source, o: Out) returns (next: Source)
    requires Before(c, s, index) && OutOk(c, s, index, Out(v, []), end) && Settled(c, v, end) && act.Ask?
    requires !c.features.addressContext && ValuesFit(v, act.values)
    requires act.sample == (v.widths != [] && (c.features.window ==> v.recorded))
    requires AskRows(c, index, v, act) == Some(o)
    ensures OutOk(c, s, index, o, next) && Settled(c, o.v, next) && o.v.life == v.life
    ensures Fine(act) <==> (c.features.registers ==> BaselineComplete(next.registers))
  {
    hide OutOk, SampleAll, BaselineComplete, AllSampled, NoneSampled, SameRegisters;
    next := end;
    if act.sample { next := SampleOk(c, s, index, Out(v, []), end, act.pc, 2, act.values); }
    OutMatches(c, s, index, o, next);
    if c.features.registers { SampledOrNot(o.v, next.registers.value); }
  }

  lemma SampledOrNot(v: Vcpu, regs: RegisterFile)
    requires |v.previous| == |v.widths| && SameRegisters(v, regs)
    ensures AllSampled(v) ==> BaselineComplete(Some(regs))
    ensures v.widths == [] ==> AllSampled(v)
    ensures v.widths != [] && NoneSampled(v) ==> !BaselineComplete(Some(regs))
  {
    if v.widths != [] && NoneSampled(v) { assert 0 in regs && !regs[0].sampled; }
  }

  lemma SourceFeatures(s: State, t: State, index: nat, rows: nat)
    requires index < MAX_SOURCES && OnlySource(s, t, index, rows)
    ensures t.features == s.features
  {
  }

  lemma ExitShape(c: Config, index: nat, v: Vcpu, act: Act, o: Out) returns (p: Out)
    requires act.Exit? && ActStep(c, index, v, act) == Some(o)
    ensures ExitRows(c, index, v, act) == Some(p)
    ensures var q := FlushOut(index, p);
      o.v.life == Gone && o.sent == q.sent + [Sent(EndFrame(index, q.v.batch.next), [])] && q.v.batch.items == []
  {
    hide ExitRows, Drained, EndFrame;
    p := ExitRows(c, index, v, act).value;
  }

  lemma FlushSettled(c: Config, s: State, index: nat, o: Out, end: Source)
    requires Before(c, s, index) && OutOk(c, s, index, o, end) && Settled(c, o.v, end)
    ensures OutOk(c, s, index, FlushOut(index, o), end) && Settled(c, FlushOut(index, o).v, end)
  {
    hide OutOk, Matches, FlushOut;
    FlushOk(c, s, index, o, end);
    FlushKeeps(index, o);
  }

  // ---------------------------------------------------------------- whole captures

  /** What a step adds to the wire is accepted exactly when it may be, and the stream then agrees again. */
  lemma StepTracks(s: State, r: Raw, e: Event, q: Raw)
    requires Tracks(s, r) && Step(r, e) == Some(q)
    ensures r.wire <= q.wire && Follows(s, Since(r, q), Fine(e.act), q)
  {
    hide ActStep, Tracks, Legal, Follows, Fine;
    var v := r.vcpus[e.index];
    var o := ActStep(r.config, e.index, v, e.act).value;
    if e.act.Translate? {
      TranslateShape(r.config, e.index, v, e.act);
      assert r.vcpus[e.index := v] == r.vcpus;
      assert Since(r, q) == Announced(r, e.act);
      TranslateTracks(s, r, e.act, q);
    } else {
      assert Since(r, q) == o.sent;
      CallbackTracks(s, r, e, q, o);
    }
  }

  lemma TranslateShape(c: Config, index: nat, v: Vcpu, act: Act)
    requires act.Translate? && Legal(c, v, act)
    ensures ActStep(c, index, v, act) == Some(Out(v, [])) && Fine(act) && act.code.first < act.code.end
  {
  }

  lemma CallbackTracks(s: State, r: Raw, e: Event, q: Raw, o: Out)
    requires Tracks(s, r) && Step(r, e) == Some(q) && e.index < |r.vcpus| && !e.act.Translate?
    requires ActStep(r.config, e.index, r.vcpus[e.index], e.act) == Some(o)
    ensures Follows(s, o.sent, Fine(e.act), q)
  {
    hide ActStep, AcceptAll, MemorySent, CpuTracks, Accepted, Live, Ready, Frames, Fine, Legal;
    BeforeAct(s, r, e.index);
    assert CpuTracks(r.config, s, e.index, r.vcpus[e.index]);
    CpuStep(r.config, s, e.index, r.vcpus[e.index], e.act, o);
    var t := AcceptAll(s, Frames(o.sent));
    if t.Some? {
      SourceOpen(s, t.value, e.index, MemorySent(o.sent));
      SourceCounts(s, t.value, e.index, MemorySent(o.sent));
      forall j | 0 <= j < |q.vcpus| && j != e.index ensures CpuTracks(q.config, t.value, j, q.vcpus[j]) {
        assert CpuTracks(r.config, s, j, r.vcpus[j]);
        OtherTracks(r.config, s, t.value, e.index, j, r.vcpus[j], MemorySent(o.sent));
      }
    }
  }

  lemma SourceOpen(s: State, t: State, index: nat, rows: nat)
    requires Open(s) && index < MAX_SOURCES && OnlySource(s, t, index, rows)
    ensures Open(t) && t.features == s.features && t.layoutSeen == s.layoutSeen
    ensures forall i :: 0 <= i < MAX_SOURCES && i != index ==> t.sources[i] == s.sources[i]
  {
  }

  /** The code span is accepted, because nothing ran before it was announced. */
  lemma TranslateTracks(s: State, r: Raw, act: Act, q: Raw)
    requires Tracks(s, r) && act.Translate? && act.code.first < act.code.end
    requires q == r.(wire := r.wire + Announced(r, act), laid := true)
    ensures Follows(s, Announced(r, act), true, q)
  {
    hide CpuTracks, LayoutFrame, Follows;
    if Announced(r, act) == [] {
      NothingFollowed(s, q);
    } else {
      var t := s.(layoutSeen := true);
      LayoutAccepted(s, act.code);
      forall i | 0 <= i < |r.vcpus| ensures CpuTracks(q.config, t, i, q.vcpus[i]) {
        assert CpuTracks(r.config, s, i, r.vcpus[i]);
        SameSources(r.config, s, t, i, r.vcpus[i]);
      }
      LayoutFollows(s, act.code, q);
    }
  }

  lemma NothingFollowed(s: State, q: Raw)
    requires Tracks(s, q)
    ensures Follows(s, [], true, q)
  {
    hide Tracks;
    assert Frames([]) == [];
    NoRoomNeeded(s);
    AcceptsNothing(s);
  }

  lemma LayoutFollows(s: State, code: Code, q: Raw)
    requires Accept(s, LayoutFrame(code)) == Some(s.(layoutSeen := true)) && Tracks(s.(layoutSeen := true), q)
    ensures Follows(s, [Sent(LayoutFrame(code), [])], true, q)
  {
    hide Tracks, LayoutFrame, Accept, Frames, MemoryCount, NoTwins, MemorySent, Apart, AcceptAll;
    var x := Sent(LayoutFrame(code), []);
    AcceptsNothing(s);
    NoCounts();
    NoRoomNeeded(s);
    SentAppend([], x);
    assert [] + [x] == [x] && [] + [x.frame] == [x.frame];
    OneMoreFrame(s, [], x.frame);
    assert Frames([]) == [] by { NoFramesSent(); }
  }

  lemma NoFramesSent()
    ensures Frames([]) == []
  {
  }

  lemma SameSources(c: Config, s: State, t: State, j: nat, v: Vcpu)
    requires s.features == t.features == c.features && j < MAX_SOURCES && s.sources == t.sources
    requires CpuTracks(c, s, j, v)
    ensures CpuTracks(c, t, j, v)
  {
    hide Valid, RawRows, Follow, SameRegisters;
    if v.life == Active {
      var end: Source :| Link(c, s, j, v, end);
      assert Link(c, t, j, v, end);
    }
  }

  lemma LayoutAccepted(s: State, code: Code)
    requires Open(s) && s.features.executableLayout && !s.layoutSeen && !s.sourceDataSeen && code.first < code.end
    ensures Accept(s, LayoutFrame(code)) == Some(s.(layoutSeen := true))
  {
    hide Load, Bytes;
    var b := LayoutFrame(code).payload;
    assert b[0..8] == Bytes(code.first, 8);
    assert b[8..16] == Bytes(code.end, 8);
    Pow256Words();
    LoadStored(b, 0, 8, code.first);
    LoadStored(b, 8, 8, code.end);
  }

  lemma SentJoin(a: seq<Sent>, b: seq<Sent>)
    ensures Frames(a + b) == Frames(a) + Frames(b)
    ensures Apart(a + b) <==> Apart(a) && Apart(b)
  {
    hide NoTwins;
    if Apart(a + b) {
      forall i | 0 <= i < |a| ensures NoTwins(a[i].rows) { assert (a + b)[i] == a[i]; }
      forall i | 0 <= i < |b| ensures NoTwins(b[i].rows) { assert (a + b)[|a| + i] == b[i]; }
    }
  }

  lemma {:induction false} MemoryJoin(a: seq<Sent>, b: seq<Sent>)
    ensures MemorySent(a + b) == MemorySent(a) + MemorySent(b)
  {
    hide MemoryCount;
    if b == [] {
      assert a + b == a;
    } else {
      assert (a + b)[..|a + b| - 1] == a + b[..|b| - 1];
      MemoryJoin(a, b[..|b| - 1]);
    }
  }

  /** The frames a run adds to the wire. */
  function Since(r: Raw, q: Raw): seq<Sent>
    requires |r.wire| <= |q.wire|
  {
    q.wire[|r.wire|..]
  }

  lemma StepWire(r: Raw, e: Event, q: Raw)
    requires Step(r, e) == Some(q)
    ensures r.wire <= q.wire && q.config == r.config && |q.vcpus| == |r.vcpus| && e.index < |r.vcpus|
    ensures ActStep(r.config, e.index, r.vcpus[e.index], e.act).Some?
    ensures q.wire == r.wire + ActStep(r.config, e.index, r.vcpus[e.index], e.act).value.sent + Announced(r, e.act)
  {
    hide ActStep, Legal;
  }

  lemma {:induction false} RunWire(r: Raw, events: seq<Event>)
    ensures RunEvents(r, events).Some? ==> r.wire <= RunEvents(r, events).value.wire
    ensures RunEvents(r, events).Some? ==> RunEvents(r, events).value.config == r.config
  {
    hide Step;
    if events == [] {
    } else {
      RunWire(r, events[..|events| - 1]);
      var m := RunEvents(r, events[..|events| - 1]);
      if m.Some? && Step(m.value, events[|events| - 1]).Some? {
        StepWire(m.value, events[|events| - 1], Step(m.value, events[|events| - 1]).value);
      }
    }
  }

  /** The stream after a list of frames; one that does not have its header's size is refused. */
  function Takes(s: State, frames: seq<Frame>): Option<State> {
    if Sized(frames) then AcceptAll(s, frames) else None
  }

  /**
   * Sending `sent` is accepted exactly when it may be and the callbacks were fine,
   * and then keeps the stream and the plugin together.
   */
  ghost predicate Follows(s: State, sent: seq<Sent>, fine: bool, q: Raw) {
    var t := Takes(s, Frames(sent));
    && (t.Some? <==> Accepted(s, sent) && fine)
    && (t.Some? ==> Tracks(t.value, q) && Counts(s, t.value, MemorySent(sent)))
  }

  /** Only sources and the memory row count have changed. */
  predicate Counts(s: State, t: State, rows: nat) {
    && t.features == s.features && t.windows == s.windows && t.filterSeen == s.filterSeen
    && t.filterRows == s.filterRows + if s.features.contextFilter then rows else 0
  }

  /**
   * Every run: the frames it sends are accepted exactly when every register name is
   * printable, no input is requested before recording starts, no frame holds two
   * neighbouring contexts and, where memory rows are filtered, their number still
   * fits the validator's counter. The stream then agrees with every vCPU again.
   */
  lemma {:induction false} RunAccepted(s: State, r: Raw, events: seq<Event>, q: Raw)
    requires Tracks(s, r) && RunEvents(r, events) == Some(q)
    ensures r.wire <= q.wire && Follows(s, Since(r, q), AllFine(events), q)
  {
    hide Step, Follows, AllFine, Tracks, Since;
    RunWire(r, events);
    if events == [] {
      NoneSent(s, r);
      assert AllFine([]) by { FineNone(); }
    } else {
      var front, e := events[..|events| - 1], events[|events| - 1];
      var m := RunEvents(r, front).value;
      RunAccepted(s, r, front, m);
      StepWire(m, e, q);
      SinceJoin(r, m, q);
      RunStep(s, m, e, q, Since(r, m), AllFine(front));
      FineLast(front, e);
      assert front + [e] == events;
    }
  }

  lemma FineNone()
    ensures AllFine([])
  {
  }

  lemma SinceJoin(r: Raw, m: Raw, q: Raw)
    requires r.wire <= m.wire <= q.wire
    ensures Since(r, q) == Since(r, m) + Since(m, q)
  {
  }

  lemma FineLast(front: seq<Event>, e: Event)
    ensures AllFine(front + [e]) <==> AllFine(front) && Fine(e.act)
  {
    hide Fine;
    if AllFine(front + [e]) {
      assert (front + [e])[|front|] == e;
      forall i | 0 <= i < |front| ensures Fine(front[i].act) { assert (front + [e])[i] == front[i]; }
    }
  }

  lemma NoneSent(s: State, r: Raw)
    requires Tracks(s, r)
    ensures Since(r, r) == [] && Follows(s, [], true, r)
  {
    hide Tracks, Follows;
    NothingFollowed(s, r);
  }

  lemma RunStep(s: State, m: Raw, e: Event, q: Raw, a: seq<Sent>, fine: bool)
    requires Step(m, e) == Some(q) && m.wire <= q.wire && Follows(s, a, fine, m)
    ensures Follows(s, a + Since(m, q), fine && Fine(e.act), q)
  {
    hide Step, AcceptAll, MemorySent, Apart, Tracks, Frames, Fine;
    var b := Since(m, q);
    SentJoin(a, b);
    MemoryJoin(a, b);
    FilterSplit(s, MemorySent(a), MemorySent(b));
    var t := Takes(s, Frames(a));
    if t.Some? {
      StepTracks(t.value, m, e, q);
      TakesJoin(s, Frames(a), Frames(b));
    } else {
      RefusedStays(s, Frames(a), Frames(b));
    }
  }

  lemma TakesJoin(s: State, a: seq<Frame>, b: seq<Frame>)
    requires Takes(s, a).Some?
    ensures Takes(s, a + b) == Takes(Takes(s, a).value, b)
  {
    hide AcceptAll, WellSized;
    if Sized(b) { AllAppend(s, a, b); }
    if Sized(a + b) {
      forall i | 0 <= i < |b| ensures WellSized(b[i]) { assert (a + b)[|a| + i] == b[i]; }
    }
  }

  lemma SourceCounts(s: State, t: State, index: nat, rows: nat)
    requires index < MAX_SOURCES && OnlySource(s, t, index, rows)
    ensures Counts(s, t, rows)
  {
  }

  lemma RefusedStays(s: State, a: seq<Frame>, b: seq<Frame>)
    requires Takes(s, a).None?
    ensures Takes(s, a + b).None?
  {
    hide AcceptAll, WellSized;
    if Sized(a + b) {
      forall i | 0 <= i < |a| ensures WellSized(a[i]) { assert (a + b)[i] == a[i]; }
      forall i | 0 <= i < |b| ensures WellSized(b[i]) { assert (a + b)[|a| + i] == b[i]; }
      AllAppend(s, a, b);
    }
  }

  lemma ContextKind(pc: u64, context: Context, known: nat)
    ensures ContextRow(pc, context, known).kind == AddressContext
  {
  }

  lemma RegisterKind(pc: u64, id: nat, checkpoint: nat, baseline: bool, value: seq<byte>)
    ensures RegisterRow(pc, id, checkpoint, baseline, value).kind == Registers
  {
  }

  // ---------------------------------------------------------------- lives

  function LifeAfter(v: Vcpu, act: Act): Life {
    if act.Start? then Active else if act.Exit? then Gone else v.life
  }

  lemma PutKeeps(c: Config, index: nat, o: Out, x: Item)
    ensures var p := Put(c, index, o, x); p.Some? ==> p.value.v == o.v.(batch := p.value.v.batch)
  {
    PutShape(c, index, o, x);
  }

  lemma {:induction false} RegistersKeep(c: Config, index: nat, o: Out, pc: u64, checkpoint: nat,
                                         values: seq<seq<byte>>, n: nat)
    requires n <= |values| == |o.v.previous|
    ensures var p := PutRegisters(c, index, o, pc, checkpoint, values, n);
      p.Some? ==> p.value.v.life == o.v.life && p.value.v.recorded == o.v.recorded
  {
    hide Put, RegisterRow;
    if n == 0 {
    } else {
      RegistersKeep(c, index, o, pc, checkpoint, values, n - 1);
      var m := PutRegisters(c, index, o, pc, checkpoint, values, n - 1);
      if m.Some? && m.value.v.previous[n - 1] != Some(values[n - 1]) {
        PutKeeps(c, index, m.value, RegisterRow(pc, n - 1, checkpoint, m.value.v.previous[n - 1].None?, values[n - 1]));
      }
    }
  }

  lemma SampleKeeps(c: Config, index: nat, o: Out, pc: u64, checkpoint: nat, values: seq<seq<byte>>)
    ensures var p := SampleAll(c, index, o, pc, checkpoint, values);
      p.Some? ==> p.value.v.life == o.v.life && p.value.v.recorded == o.v.recorded
  {
    hide PutRegisters;
    if |values| == |o.v.previous| { RegistersKeep(c, index, o, pc, checkpoint, values, |values|); }
  }

  lemma ContextKeeps(c: Config, index: nat, o: Out, pc: u64, context: Context)
    ensures var p := PutContext(c, index, o, pc, context);
      p.Some? ==> p.value.v.life == o.v.life && p.value.v.recorded == o.v.recorded
  {
    hide Put, ContextRow;
    PutKeeps(c, index, o, ContextRow(pc, context, c.known));
  }

  lemma StartKeeps(c: Config, index: nat, v: Vcpu, ds: seq<Declared>, o: Out)
    requires StartStep(c, index, v, ds) == Some(o)
    ensures o.v.life == Active && o.v.recorded == v.recorded
  {
    hide PutSchemas, Drained;
  }

  lemma ActLife(c: Config, index: nat, v: Vcpu, act: Act, o: Out)
    requires ActStep(c, index, v, act) == Some(o)
    ensures o.v.life == LifeAfter(v, act) && (v.recorded || act.Enter? ==> o.v.recorded)
  {
    hide PutContext, SampleAll, Put, Drained, EndFrame, AskFrame, PutSchemas;
    match act
    case Start(ds) => StartKeeps(c, index, v, ds, o);
    case Translate(_) =>
    case Flush =>
    case Ask(sample, pc, values, _) => SampleKeeps(c, index, Out(v, []), pc, 2, values);
    case Syscall(pc, values) => SampleKeeps(c, index, Out(v, []), pc, 2, values);
    case Enter(pc, context, values, rich) =>
      ContextKeeps(c, index, Out(v, []), pc, context);
      var p := PutContext(c, index, Out(v, []), pc, context).value;
      SampleKeeps(c, index, p, pc, 1, values);
      var q := if rich then SampleAll(c, index, p, pc, 1, values).value else p;
      PutKeeps(c, index, q, BlockRow(pc));
    case Touch(access, context) =>
      ContextKeeps(c, index, Out(v, []), access.pc, context);
      var p := if c.features.contextFilter then Out(v, [])
               else PutContext(c, index, Out(v, []), access.pc, context).value;
      PutKeeps(c, index, p, MemoryRow(c.features, access, p.v.contextSequence));
    case Exit(sample, pc, context, values, rich) =>
      ContextKeeps(c, index, Out(v, []), pc, context);
      if sample && rich {
        SampleKeeps(c, index, PutContext(c, index, Out(v, []), pc, context).value, pc, 3, values);
      }
  }
}
