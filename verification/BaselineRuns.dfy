/**
Register baselines in every accepted trace: a register's first row, and only
that row, is a baseline; the schema closes at the first source data; and without
the context filter every block and memory row follows a complete baseline.
*/
module BaselineRuns {
  import opened Words
  import opened Wire
  import opened Transitions
  import opened Validator
  import opened ValidatorRuns
  import opened BoundaryRuns

  /** The register rows a frame carries for one vCPU. */
  function SamplesIn(frame: Frame, source: nat): seq<Sample> {
    if frame.header.kind == Registers && frame.header.source == source then
      match Samples(frame.payload, 0, frame.header.count)
      case None => []
      case Some(samples) => samples
    else []
  }

  function AllSamples(frames: seq<Frame>, source: nat): seq<Sample> {
    if frames == [] then []
    else AllSamples(frames[..|frames| - 1], source) + SamplesIn(frames[|frames| - 1], source)
  }

  predicate Sampled(log: seq<Sample>, id: nat) {
    exists i :: 0 <= i < |log| && log[i].id == id
  }

  predicate BaselineFirst(log: seq<Sample>) {
    forall i :: 0 <= i < |log| ==> (log[i].baseline <==> !Sampled(log[..i], log[i].id))
  }

  /** The register file remembers exactly the registers the log has sampled. */
  ghost predicate Remembers(registers: Option<RegisterFile>, log: seq<Sample>) {
    && BaselineFirst(log)
    && (registers.None? ==> log == [])
    && (registers.Some? ==> forall id :: Sampled(log, id) <==> id in registers.value && registers.value[id].sampled)
  }

  lemma RememberOne(regs: RegisterFile, log: seq<Sample>, sample: Sample)
    requires Remembers(Some(regs), log)
    requires sample.id in regs && sample.baseline != regs[sample.id].sampled
    ensures Remembers(Some(regs[sample.id := regs[sample.id].(sampled := true)]), log + [sample])
  {
    var after := log + [sample];
    forall i | 0 <= i < |after| ensures after[i].baseline <==> !Sampled(after[..i], after[i].id) {
      if i < |log| { assert after[..i] == log[..i]; } else { assert after[..i] == log; }
    }
    forall id ensures Sampled(after, id) <==> Sampled(log, id) || id == sample.id {
      if Sampled(log, id) {
        var i :| 0 <= i < |log| && log[i].id == id;
        assert after[i].id == id;
      }
      if id == sample.id { assert after[|log|].id == id; }
    }
  }

  lemma {:induction false} RememberAll(regs: RegisterFile, log: seq<Sample>, samples: seq<Sample>, after: RegisterFile)
    requires Remembers(Some(regs), log) && Apply(regs, samples) == Some(after)
    ensures Remembers(Some(after), log + samples) && after.Keys == regs.Keys
    decreases |samples|
  {
    if samples == [] {
      assert log + samples == log;
    } else {
      var first := samples[0];
      var next := regs[first.id := regs[first.id].(sampled := true)];
      RememberOne(regs, log, first);
      RememberAll(next, log + [first], samples[1..], after);
      assert log + samples == log + [first] + samples[1..];
    }
  }

  lemma {:induction false} DeclareKeeps(regs: RegisterFile, b: seq<byte>, row: nat, count: nat, after: RegisterFile)
    requires row <= count && count * SCHEMA_BYTES <= |b| && Declare(regs, b, row, count) == Some(after)
    ensures forall id :: id in regs ==> id in after && after[id] == regs[id]
    ensures forall id :: id in after && id !in regs ==> !after[id].sampled
    decreases count - row
  {
    hide ValidName, Load;
    if row < count {
      var at := row * SCHEMA_BYTES;
      var id := U32(b, at);
      DeclareKeeps(regs[id := Register(U32(b, at + 4), b[at + 8..at + 72], false)], b, row + 1, count, after);
    }
  }

  /** How one accepted frame may change a vCPU's register file. */
  ghost predicate RegisterStep(frame: Frame, source: nat, before: Source, after: Source)
    requires WellSized(frame)
  {
    var h, b := frame.header, frame.payload;
    if h.source == source && h.kind == Registers then
      && before.registers.Some? && after.registers.Some? && Samples(b, 0, h.count).Some?
      && Apply(before.registers.value, Samples(b, 0, h.count).value) == after.registers
    else if h.source == source && h.kind == RegisterSchema then
      && !before.data && h.count * SCHEMA_BYTES <= |b| && after.registers.Some?
      && Declare(if before.registers.Some? then before.registers.value else map[], b, 0, h.count) == after.registers
    else after.registers == before.registers
  }

  lemma SourceRegisters(s: State, frame: Frame, t: State, source: nat)
    requires WellSized(frame) && LegalHeader(frame.header) && source < MAX_SOURCES
    requires frame.header.kind == RegisterSchema || Sequenced(frame.header.kind)
    requires AcceptSource(s, frame.header, frame.payload) == Some(t)
    ensures RegisterStep(frame, source, s.sources[source], t.sources[source])
    ensures s.sources[source].data ==> t.sources[source].data
    ensures frame.header.source == source && Sequenced(frame.header.kind) ==> t.sources[source].data
    ensures (frame.header.source == source && NeedsBaseline(s, frame.header))
            ==> BaselineComplete(s.sources[source].registers)
  {
    var h, b := frame.header, frame.payload;
    LegalFields(h);
    SchemaSize(h);
    hide LegalHeader, Declare, Samples, Apply, ValidAccess, ValidContext, BaselineComplete;
    if h.kind != RegisterSchema && h.kind != Registers && h.source == source {
      RowsContinue(s, h, b, AcceptRows(s, h, b).value);
    }
  }

  lemma SchemaSize(h: Header)
    requires LegalHeader(h)
    ensures h.kind == RegisterSchema ==> h.count * SCHEMA_BYTES == PayloadSize(h)
  {
  }

  lemma OtherRegisters(s: State, h: Header, b: seq<byte>, t: State, source: nat)
    requires |b| == PayloadSize(h) && source < MAX_SOURCES && AcceptSingle(s, h, b) == Some(t)
    requires h.kind != RegisterSchema && !Sequenced(h.kind)
    ensures t.sources[source].registers == s.sources[source].registers
    ensures s.sources[source].data ==> t.sources[source].data
  {
    hide AcceptSingle, LegalHeader, NewRows, SumCounts, KeysOf, ValidReducedRow, ReducedBlock, ClosesSource,
      ReductionAt, ClosesWindow, WindowTotalsAt, TransitionRows;
    if Global(h.kind) { GlobalStep(s, h, b, t); } else { SourceStep(s, h, b, t); LegalFields(h); }
  }

  lemma StepRegisters(s: State, frame: Frame, t: State, source: nat)
    requires WellSized(frame) && source < MAX_SOURCES
    requires AcceptSingle(s, frame.header, frame.payload) == Some(t)
    ensures RegisterStep(frame, source, s.sources[source], t.sources[source])
    ensures s.sources[source].data ==> t.sources[source].data
  {
    var h, b := frame.header, frame.payload;
    hide AcceptSingle, AcceptSource, RegisterStep, LegalHeader;
    if h.kind == RegisterSchema || Sequenced(h.kind) {
      SourceStep(s, h, b, t);
      SourceRegisters(s, frame, t, source);
    } else {
      OtherRegisters(s, h, b, t, source);
      SameRegisters(frame, source, s.sources[source], t.sources[source]);
    }
  }

  lemma SameRegisters(frame: Frame, source: nat, before: Source, after: Source)
    requires WellSized(frame) && frame.header.kind != RegisterSchema && !Sequenced(frame.header.kind)
    requires after.registers == before.registers
    ensures RegisterStep(frame, source, before, after)
  {
  }

  /** A register step keeps the log and, once there is data, the declared set. */
  lemma StepRemembers(frame: Frame, source: nat, before: Source, after: Source, log: seq<Sample>)
    requires WellSized(frame) && RegisterStep(frame, source, before, after)
    requires Remembers(before.registers, log)
    ensures Remembers(after.registers, log + SamplesIn(frame, source))
    ensures before.data && before.registers.Some? ==>
      after.registers.Some? && after.registers.value.Keys == before.registers.value.Keys
  {
    var h, b := frame.header, frame.payload;
    hide Samples, Apply, Declare, Remembers;
    if h.source == source && h.kind == Registers {
      assert Some(before.registers.value) == before.registers && Some(after.registers.value) == after.registers;
      RememberAll(before.registers.value, log, Samples(b, 0, h.count).value, after.registers.value);
    } else {
      assert log + SamplesIn(frame, source) == log;
      if h.source == source && h.kind == RegisterSchema {
        SchemaRemembers(before.registers, log, b, h.count, after.registers.value);
      }
    }
  }

  lemma SchemaRemembers(registers: Option<RegisterFile>, log: seq<Sample>, b: seq<byte>, count: nat,
                        after: RegisterFile)
    requires Remembers(registers, log) && count * SCHEMA_BYTES <= |b|
    requires Declare(if registers.Some? then registers.value else map[], b, 0, count) == Some(after)
    ensures Remembers(Some(after), log)
  {
    DeclareKeeps(if registers.Some? then registers.value else map[], b, 0, count, after);
    hide Declare, BaselineFirst, Sampled;
    if registers.None? { NothingSampled(); }
  }

  lemma NothingSampled()
    ensures forall id :: !Sampled([], id)
  {
  }

  lemma {:induction false} RunRemembers(frames: seq<Frame>, t: State, source: nat)
    requires Sized(frames) && AcceptSingles(Initial(), frames) == Some(t) && source < MAX_SOURCES
    ensures Remembers(t.sources[source].registers, AllSamples(frames, source))
  {
    hide AcceptSingle;
    if frames == [] {
    } else {
      var front, last := frames[..|frames| - 1], frames[|frames| - 1];
      var s := LastStep(Initial(), frames, t);
      RunRemembers(front, s, source);
      StepRegisters(s, last, t, source);
      StepRemembers(last, source, s.sources[source], t.sources[source], AllSamples(front, source));
    }
  }

  /** Each register's first row, and only that row, is a baseline. */
  lemma FirstRowIsBaseline(frames: seq<Frame>, t: State, source: nat)
    requires Sized(frames) && AcceptSingles(Initial(), frames) == Some(t) && source < MAX_SOURCES
    ensures BaselineFirst(AllSamples(frames, source))
  {
    RunRemembers(frames, t, source);
  }

  /**
  Every register the finished trace declares was sampled before any block or
  memory row, however late the schema or however early the row.
  */
  lemma {:induction false} RowsFollowBaseline(frames: seq<Frame>, t: State, source: nat, k: nat)
    requires Sized(frames) && AcceptSingles(Initial(), frames) == Some(t) && source < MAX_SOURCES
    requires t.features.registers && !t.features.contextFilter
    requires k < |frames| && frames[k].header.source == source
    requires frames[k].header.kind == Blocks || frames[k].header.kind == Memory
    ensures t.sources[source].data && t.sources[source].registers.Some?
    ensures forall id :: id in t.sources[source].registers.value ==> Sampled(AllSamples(frames[..k], source), id)
  {
    hide AcceptSingle, AcceptSource, Sampled, BaselineFirst, LegalHeader, Samples, Apply, Declare;
    var front, last := frames[..|frames| - 1], frames[|frames| - 1];
    var s := LastStep(Initial(), frames, t);
    RunRemembers(front, s, source);
    StepRegisters(s, last, t, source);
    StepRemembers(last, source, s.sources[source], t.sources[source], AllSamples(front, source));
    if k == |front| {
      SourceStep(s, last.header, last.payload, t);
      StepStarted(s, last.header, last.payload, t);
      SourceRegisters(s, last, t, source);
    } else {
      assert front[k] == frames[k] && front[..k] == frames[..k];
      DataStarted(front, s, source, k);
      StepStarted(s, last.header, last.payload, t);
      RowsFollowBaseline(front, s, source, k);
    }
  }

  lemma {:induction false} DataStarted(frames: seq<Frame>, t: State, source: nat, k: nat)
    requires Sized(frames) && AcceptSingles(Initial(), frames) == Some(t)
    requires k < |frames| && (frames[k].header.kind == Blocks || frames[k].header.kind == Memory)
    ensures t.started
  {
    hide AcceptSingle;
    var front, last := frames[..|frames| - 1], frames[|frames| - 1];
    var s := LastStep(Initial(), frames, t);
    StepStarted(s, last.header, last.payload, t);
    if k == |front| {
      SourceStep(s, last.header, last.payload, t);
    } else {
      assert front[k] == frames[k];
      DataStarted(front, s, source, k);
    }
  }

  /** Both over whole traces, mixed frames included. */
  lemma TraceBaselines(frames: seq<Frame>, t: State, source: nat)
    requires Sized(frames) && AcceptAll(Initial(), frames) == Some(t) && source < MAX_SOURCES
    ensures Flat(frames).Some? && BaselineFirst(AllSamples(Flat(frames).value, source))
    ensures t.features.registers && !t.features.contextFilter ==>
      forall k :: 0 <= k < |Flat(frames).value| && CarriesData(Flat(frames).value[k].header, source) ==>
        && t.sources[source].data && t.sources[source].registers.Some?
        && forall id :: id in t.sources[source].registers.value
                        ==> Sampled(AllSamples(Flat(frames).value[..k], source), id)
  {
    hide AcceptSingle, Expand, Initial, Sampled, BaselineFirst, AllSamples;
    MixedIsItsRuns(Initial(), frames);
    var flat := Flat(frames).value;
    FirstRowIsBaseline(flat, t, source);
    if t.features.registers && !t.features.contextFilter {
      forall k | 0 <= k < |flat| && CarriesData(flat[k].header, source)
        ensures && t.sources[source].data && t.sources[source].registers.Some?
                && forall id :: id in t.sources[source].registers.value ==> Sampled(AllSamples(flat[..k], source), id)
      {
        RowsFollowBaseline(flat, t, source, k);
      }
    }
  }

  predicate CarriesData(h: Header, source: nat) {
    h.source == source && (h.kind == Blocks || h.kind == Memory)
  }
}
