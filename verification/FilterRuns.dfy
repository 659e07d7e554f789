/**
Filtered memory capture across vCPUs: block entries, memory accesses, the racing
gate entries and vCPU exits in any order. The counts in the final summary are
exactly the rows that were emitted, and the validator accepts them exactly when
kept and dropped accesses together fit 64 bits.
*/
module FilterRuns {
  import opened Words
  import opened Wire
  import opened Validator
  import opened ValidatorRuns
  import opened ContextFilters
  import BoundaryRuns
  import Transitions

  datatype Life = Unused | Active | Ended

  /** Where a vCPU is inside the callback of a gate block. */
  datatype Stage = Outside | AtGate(cr3: nat) | Claimed(cr3: nat) | Stored(cr3: nat) | Admitted

  /**
   * One vCPU. `accesses` is the true number of its memory accesses; the inline
   * counter the plugin reads is that number modulo 2^64.
   */
  datatype Vcpu = Vcpu(life: Life, accesses: nat, base: nat, admission: bool, recording: bool,
                       relation: Relation, counts: Counts, rows: nat, stage: Stage)

  datatype Machine = Machine(filter: Filter, gate: nat, running: bool, vcpus: seq<Vcpu>)

  datatype Event =
    | Start(source: nat)
    | Block(source: nat, pc: nat, cr3: nat)
    | Advance(source: nat)                  // the next atomic step of a gate callback
    | Access(source: nat)
    | Exit(source: nat)

  const FRESH: Vcpu := Vcpu(Unused, 0, 0, false, false, Relation.Unknown, NO_COUNTS, 0, Outside)

  /** The 64-bit inline counter, which wraps. */
  function InlineTotal(v: Vcpu): nat {
    if v.accesses <= MAX64 then v.accesses else v.accesses % (MAX64 + 1)
  }

  /** `account_filter_memory`: attributes the accesses since the last boundary. */
  function Attribute(policy: Policy, v: Vcpu): Option<Vcpu> {
    var total := InlineTotal(v);
    if total < v.base then None
    else if !v.recording then Some(v.(base := total))
    else
      match Account(policy, v.counts, v.relation, total - v.base)
      case None => None
      case Some(counts) => Some(v.(base := total, counts := counts))
  }

  /** The relation and the admission flag refreshed at a recorded block. */
  function Refresh(f: Filter, v: Vcpu, cr3: nat): Vcpu {
    var relation := RelationOf(f, cr3, true);
    v.(relation := relation, admission := Admits(f.policy, relation))
  }

  function SetVcpu(m: Machine, i: nat, v: Vcpu): Machine
    requires i < |m.vcpus|
  {
    m.(vcpus := m.vcpus[i := v])
  }

  function BlockStep(m: Machine, i: nat, pc: nat, cr3: nat): Option<Machine>
    requires i < |m.vcpus|
  {
    match Attribute(m.filter.policy, m.vcpus[i])
    case None => None
    case Some(v) =>
      if m.running then Some(SetVcpu(m, i, Refresh(m.filter, v.(recording := true), cr3)))
      else if pc != m.gate then Some(SetVcpu(m, i, v.(recording := false)))
      else Some(SetVcpu(m, i, v.(recording := true, stage := AtGate(cr3))))
  }

  function AdvanceStep(m: Machine, i: nat): Option<Machine>
    requires i < |m.vcpus|
  {
    var v := m.vcpus[i];
    match v.stage
    case AtGate(cr3) =>
      if m.filter.latch == Waiting
      then Some(SetVcpu(m, i, v.(stage := Claimed(cr3))).(filter := m.filter.(latch := Writing)))
      else Some(SetVcpu(m, i, v.(recording := false, stage := Outside)))
    case Claimed(cr3) =>
      Some(SetVcpu(m, i, v.(stage := Stored(cr3))).(filter := Latched(m.filter, i, m.gate, cr3, true)))
    case Stored(cr3) => Some(SetVcpu(m, i, Refresh(m.filter, v, cr3).(stage := Admitted)))
    case Admitted => Some(SetVcpu(m, i, v.(stage := Outside)).(running := true))
    case Outside => None
  }

  function Step(m: Machine, e: Event): Option<Machine> {
    var i := e.source;
    if i >= |m.vcpus| then None
    else
      var v := m.vcpus[i];
      if e.Start? then (if v.life == Unused then Some(SetVcpu(m, i, v.(life := Active))) else None)
      else if v.life != Active then None
      else if e.Advance? then AdvanceStep(m, i)
      else if v.stage != Outside then None
      else
        match e
        case Block(_, pc, cr3) => BlockStep(m, i, pc, cr3)
        case Access(_) =>
          Some(SetVcpu(m, i, v.(accesses := v.accesses + 1,
                                rows := if v.admission && v.recording then v.rows + 1 else v.rows)))
        case _ =>
          match Attribute(m.filter.policy, v)
          case None => None
          case Some(w) => Some(SetVcpu(m, i, w.(life := Ended)))
  }

  function RunEvents(m: Machine, events: seq<Event>): Option<Machine> {
    if events == [] then Some(m)
    else
      match RunEvents(m, events[..|events| - 1])
      case None => None
      case Some(t) => Step(t, events[|events| - 1])
  }

  // ---------------------------------------------------------------- one vCPU's books

  /** Rows emitted so far are the accesses counted as kept plus those of the current block. */
  ghost predicate Booked(policy: Policy, v: Vcpu) {
    && Balanced(policy, v.counts)
    && v.base <= v.accesses
    && v.rows == v.counts.kept + (if v.admission && v.life == Active then v.accesses - v.base else 0)
    && (v.admission ==> v.recording && Admits(policy, v.relation))
    && (v.recording && (v.stage == Outside || v.stage == Admitted) ==> v.admission == Admits(policy, v.relation))
    && (v.stage != Outside ==> v.life == Active && v.recording && v.base == v.accesses)
    && (v.stage.AtGate? || v.stage.Claimed? || v.stage.Stored? ==> !v.admission)
    && (v.life == Unused ==> !v.recording && v.accesses == 0)
    && (v.life == Ended ==> v.base == v.accesses)
    && v.counts.kept <= MAX64 && v.counts.dropped <= MAX64
    && v.counts.matching <= MAX64 && v.counts.foreign <= MAX64 && v.counts.unknown <= MAX64
  }

  lemma AttributeBooks(policy: Policy, v: Vcpu)
    requires Booked(policy, v) && v.life == Active && v.stage == Outside && v.accesses <= MAX64
    ensures var r := Attribute(policy, v);
      r.Some? ==>
        Booked(policy, r.value) && r.value.base == r.value.accesses == v.accesses &&
          r.value.rows == r.value.counts.kept &&
        r.value == v.(base := r.value.base, counts := r.value.counts)
  {
    assert InlineTotal(v) == v.accesses;
    AccountBalances(policy, v.counts, v.relation, v.accesses - v.base);
  }

  // ---------------------------------------------------------------- all vCPUs

  /** The latch has one writer, opens the gate once, and then keeps what it stored. */
  ghost predicate Gated(m: Machine) {
    && (m.running ==> m.filter.latch == Known)
    && (m.filter.latch == Known ==> m.filter.source < |m.vcpus| && m.filter.gate == m.gate)
    && (m.filter.latch == Known ==> m.filter.root == PagingRoot(m.filter.cr3))
    && m.filter.latch != Unreadable
    && (!m.running ==> forall i :: 0 <= i < |m.vcpus| ==> m.vcpus[i].admission ==> m.vcpus[i].stage.Admitted?)
    && (m.filter.latch == Waiting ==>
          forall i :: 0 <= i < |m.vcpus| ==> m.vcpus[i].stage.Outside? || m.vcpus[i].stage.AtGate?)
    && (m.filter.latch == Known ==> forall i :: 0 <= i < |m.vcpus| ==> !m.vcpus[i].stage.Claimed?)
    && (m.filter.latch == Writing ==>
          forall i :: 0 <= i < |m.vcpus| ==> !m.vcpus[i].stage.Stored? && !m.vcpus[i].stage.Admitted?)
    && (forall i, j :: 0 <= i < j < |m.vcpus| ==> !(Holder(m.vcpus[i]) && Holder(m.vcpus[j])))
  }

  /** In the part of the callback that only the latch's winner runs. */
  predicate Holder(v: Vcpu) {
    v.stage.Claimed? || v.stage.Stored? || v.stage.Admitted?
  }

  ghost predicate Inv(m: Machine) {
    Gated(m) && forall i :: 0 <= i < |m.vcpus| ==> Booked(m.filter.policy, m.vcpus[i])
  }

  /** No vCPU has made more accesses than a 64-bit counter can hold. */
  predicate Countable(m: Machine) {
    forall i :: 0 <= i < |m.vcpus| ==> m.vcpus[i].accesses <= MAX64
  }

  /** Changing one vCPU's books while the others keep theirs. */
  lemma BooksOf(m: Machine, i: nat, v: Vcpu, t: Machine)
    requires i < |m.vcpus| && t.vcpus == m.vcpus[i := v] && t.filter.policy == m.filter.policy
    requires forall j :: 0 <= j < |m.vcpus| ==> Booked(m.filter.policy, m.vcpus[j])
    requires Booked(m.filter.policy, v)
    ensures forall j :: 0 <= j < |t.vcpus| ==> Booked(t.filter.policy, t.vcpus[j])
  {
    hide Booked;
  }

  lemma SameGate(m: Machine, i: nat, v: Vcpu)
    requires Gated(m) && i < |m.vcpus| && (v.stage == m.vcpus[i].stage || (!Holder(v) && !Holder(m.vcpus[i])))
    requires !m.running ==> (v.admission ==> v.stage.Admitted?)
    ensures Gated(SetVcpu(m, i, v))
  {
  }

  lemma BlockKeeps(m: Machine, i: nat, pc: nat, cr3: nat)
    requires Inv(m) && Countable(m) && i < |m.vcpus| && m.vcpus[i].life == Active && m.vcpus[i].stage == Outside
    ensures var r := BlockStep(m, i, pc, cr3);
      r.Some? ==> Inv(r.value) && r.value == m.(vcpus := r.value.vcpus) && |r.value.vcpus| == |m.vcpus|
  {
    if !m.running { NoAdmission(m, i); }
    hide Attribute, Gated;
    AttributeBooks(m.filter.policy, m.vcpus[i]);
    var r := BlockStep(m, i, pc, cr3);
    if r.Some? {
      var v := r.value.vcpus[i];
      assert Booked(m.filter.policy, v);
      hide Booked, BlockStep;
      BooksOf(m, i, v, r.value);
      SameGate(m, i, v);
    }
  }

  lemma NoAdmission(m: Machine, i: nat)
    requires Inv(m) && i < |m.vcpus| && !m.running && m.vcpus[i].stage == Outside
    ensures !m.vcpus[i].admission
  {
    hide Booked;
  }

  /** One atomic step of a gate callback. */
  lemma AdvanceKeeps(m: Machine, i: nat)
    requires Inv(m) && i < |m.vcpus| && m.vcpus[i].life == Active
    ensures var r := AdvanceStep(m, i);
      r.Some? ==>
        && Inv(r.value) && |r.value.vcpus| == |m.vcpus| && r.value.gate == m.gate && (m.running ==> r.value.running)
        && r.value.filter.policy == m.filter.policy && (m.filter.latch == Known ==> r.value.filter == m.filter)
  {
    assert Booked(m.filter.policy, m.vcpus[i]);
    var r := AdvanceStep(m, i);
    if r.Some? {
      assert Booked(m.filter.policy, r.value.vcpus[i]) by { hide Gated, Inv; }
      AdvanceGated(m, i);
      hide Booked, Gated;
      BooksOf(m, i, r.value.vcpus[i], r.value);
    }
  }

  lemma AdvanceGated(m: Machine, i: nat)
    requires Gated(m) && i < |m.vcpus| && AdvanceStep(m, i).Some? && Booked(m.filter.policy, m.vcpus[i])
    ensures Gated(AdvanceStep(m, i).value)
    ensures m.filter.latch == Known ==> AdvanceStep(m, i).value.filter == m.filter
  {
    hide Balanced, Account;
  }

  lemma PlainKeeps(m: Machine, e: Event)
    requires Inv(m) && Countable(m) && (e.Start? || e.Access? || e.Exit?)
    ensures var r := Step(m, e);
      r.Some? ==> Inv(r.value) && r.value == m.(vcpus := r.value.vcpus) && |r.value.vcpus| == |m.vcpus|
  {
    hide Attribute, Gated;
    var r := Step(m, e);
    if r.Some? {
      var i := e.source;
      if m.vcpus[i].life == Active && m.vcpus[i].stage == Outside { AttributeBooks(m.filter.policy, m.vcpus[i]); }
      var v := r.value.vcpus[i];
      assert Booked(m.filter.policy, v);
      GateAdmission(m, i);
      hide Booked;
      BooksOf(m, i, v, r.value);
      SameGate(m, i, v);
    }
  }

  lemma GateAdmission(m: Machine, i: nat)
    requires Inv(m) && i < |m.vcpus|
    ensures !m.running ==> (m.vcpus[i].admission ==> m.vcpus[i].stage.Admitted?)
  {
    hide Booked;
  }

  /** Every step keeps the books and the latch; what was latched never changes. */
  lemma StepKeeps(m: Machine, e: Event)
    requires Inv(m) && Countable(m)
    ensures var r := Step(m, e);
      r.Some? ==>
        && Inv(r.value) && |r.value.vcpus| == |m.vcpus| && r.value.gate == m.gate && (m.running ==> r.value.running)
        && r.value.filter.policy == m.filter.policy && (m.filter.latch == Known ==> r.value.filter == m.filter)
  {
    hide Inv, BlockStep, AdvanceStep, Attribute, Countable;
    if e.Start? || e.Access? || e.Exit? { PlainKeeps(m, e); }
    else if Step(m, e).Some? {
      if e.Block? { BlockKeeps(m, e.source, e.pc, e.cr3); } else { AdvanceKeeps(m, e.source); }
    }
  }

  // ---------------------------------------------------------------- whole runs

  lemma StepCounts(m: Machine, e: Event)
    ensures var r := Step(m, e);
      r.Some? ==>
        && |r.value.vcpus| == |m.vcpus|
        && forall i :: 0 <= i < |m.vcpus| ==> m.vcpus[i].accesses <= r.value.vcpus[i].accesses
  {
    hide Account, InlineTotal, RelationOf, Admits;
  }

  /** The invariant after every run, as long as no inline counter has wrapped. */
  lemma {:induction false} RunKeeps(m: Machine, events: seq<Event>)
    requires Inv(m) && RunEvents(m, events).Some? && Countable(RunEvents(m, events).value)
    ensures Inv(RunEvents(m, events).value) && Countable(m)
    ensures var t := RunEvents(m, events).value;
      |t.vcpus| == |m.vcpus| && t.gate == m.gate && t.filter.policy == m.filter.policy
  {
    hide Inv, Step;
    if events == [] {
    } else {
      var front := events[..|events| - 1];
      var before := RunEvents(m, front).value;
      StepCounts(before, events[|events| - 1]);
      RunKeeps(m, front);
      StepKeeps(before, events[|events| - 1]);
    }
  }

  /** Fresh vCPUs in front of an unset latch. */
  lemma StartInv(policy: Policy, gate: nat, vcpus: seq<Vcpu>)
    requires forall i :: 0 <= i < |vcpus| ==> vcpus[i] == FRESH
    ensures Inv(Machine(Filter(policy, Waiting, 0, 0, 0, 0), gate, false, vcpus))
  {
    hide Booked;
    FreshBooks(policy);
    var m := Machine(Filter(policy, Waiting, 0, 0, 0, 0), gate, false, vcpus);
    forall i | 0 <= i < |vcpus| ensures !Holder(vcpus[i]) && !vcpus[i].admission && vcpus[i].stage == Outside {
      assert vcpus[i] == FRESH;
    }
    hide Holder;
    assert Gated(m);
  }

  lemma FreshBooks(policy: Policy)
    ensures Booked(policy, FRESH)
  {
  }

  // ---------------------------------------------------------------- the summary

  /** The sum over all vCPUs; fails when a total leaves 64 bits. */
  function TotalCounts(vcpus: seq<Vcpu>): Option<Counts> {
    if vcpus == [] then Some(NO_COUNTS)
    else
      match TotalCounts(vcpus[..|vcpus| - 1])
      case None => None
      case Some(k) => AddCounts(k, vcpus[|vcpus| - 1].counts)
  }

  function TotalRows(vcpus: seq<Vcpu>): nat {
    if vcpus == [] then 0 else TotalRows(vcpus[..|vcpus| - 1]) + vcpus[|vcpus| - 1].rows
  }

  /** Nothing is lost or counted twice when the vCPUs' books are added up. */
  lemma {:induction false} TotalsBalance(policy: Policy, vcpus: seq<Vcpu>)
    requires forall i :: 0 <= i < |vcpus| ==> Booked(policy, vcpus[i]) && vcpus[i].life != Active
    requires TotalCounts(vcpus).Some?
    ensures Balanced(policy, TotalCounts(vcpus).value) && TotalCounts(vcpus).value.kept == TotalRows(vcpus)
    ensures var k := TotalCounts(vcpus).value;
      k.kept <= MAX64 && k.dropped <= MAX64 && k.matching <= MAX64 && k.foreign <= MAX64 && k.unknown <= MAX64
  {
    if vcpus == [] {
    } else {
      var front, last := vcpus[..|vcpus| - 1], vcpus[|vcpus| - 1];
      TotalsBalance(policy, front);
      assert Booked(policy, last);
      SumBalances(policy, TotalCounts(front).value, last.counts);
    }
  }

  function PolicyCode(policy: Policy): nat {
    match policy case Drop => 1 case Keep => 2
  }

  function LatchCode(latch: Latch): nat {
    match latch case Waiting => 0 case Writing => 1 case Known => 2 case Unreadable => 3
  }

  function FilterBytes(f: Filter, k: Counts): (b: seq<byte>)
    ensures |b| == FILTER_BYTES
  {
    Bytes(PolicyCode(f.policy), 4) + Bytes(LatchCode(f.latch), 4) + Bytes(f.source, 4) + Bytes(0, 4) +
    Bytes(f.gate, 8) + Bytes(f.cr3, 8) + Bytes(f.root, 8) + Bytes(k.kept, 8) + Bytes(k.dropped, 8) +
    Bytes(k.matching, 8) + Bytes(k.foreign, 8) + Bytes(k.unknown, 8)
  }

  function FilterFrame(f: Filter, k: Counts): (frame: Frame)
    ensures WellSized(frame)
  {
    Frame(Header(Kind.ContextFilter, 0, 1, 0, FILTER_BYTES, VERSION), FilterBytes(f, k))
  }

  lemma FilterRoundTrip(f: Filter, k: Counts)
    requires f.source <= MAX32 && f.cr3 <= MAX64 && f.root <= MAX64
    requires k.kept <= MAX64 && k.dropped <= MAX64 && k.matching <= MAX64 && k.foreign <= MAX64 && k.unknown <= MAX64
    ensures FilterTotalsAt(FilterBytes(f, k)) ==
      FilterTotals(PolicyCode(f.policy), LatchCode(f.latch), f.source, 0, f.cr3, f.root,
                   k.kept, k.dropped, k.matching, k.foreign, k.unknown)
  {
    hide Load, Bytes;
    var b := FilterBytes(f, k);
    Pow256Words();
    assert b[0..4] == Bytes(PolicyCode(f.policy), 4);
    assert b[4..8] == Bytes(LatchCode(f.latch), 4);
    assert b[8..12] == Bytes(f.source, 4);
    assert b[12..16] == Bytes(0, 4);
    assert b[24..32] == Bytes(f.cr3, 8);
    assert b[32..40] == Bytes(f.root, 8);
    assert b[40..48] == Bytes(k.kept, 8);
    assert b[48..56] == Bytes(k.dropped, 8);
    assert b[56..64] == Bytes(k.matching, 8);
    assert b[64..72] == Bytes(k.foreign, 8);
    assert b[72..80] == b[72..] == Bytes(k.unknown, 8);
    LoadStored(b, 0, 4, PolicyCode(f.policy));
    LoadStored(b, 4, 4, LatchCode(f.latch));
    LoadStored(b, 8, 4, f.source);
    LoadStored(b, 12, 4, 0);
    LoadStored(b, 24, 8, f.cr3);
    LoadStored(b, 32, 8, f.root);
    LoadStored(b, 40, 8, k.kept);
    LoadStored(b, 48, 8, k.dropped);
    LoadStored(b, 56, 8, k.matching);
    LoadStored(b, 64, 8, k.foreign);
    LoadStored(b, 72, 8, k.unknown);
  }

  /** A stream on which every vCPU that was seen, the gate's among them, has ended. */
  ghost predicate AwaitsFilter(s: State, f: Filter, rows: nat) {
    && s.started && !s.finished && s.version == VERSION && (s.features.executableLayout ==> s.layoutSeen)
    && s.features.contextFilter && !s.filterSeen && AllSeenEnded(s)
    && f.source < MAX_SOURCES && s.sources[f.source].seen && s.filterRows == rows
  }

  /**
   * The summary of any finished run, on a stream that carried the emitted rows:
   * its equations always hold, and it is accepted exactly when the kept and the
   * dropped accesses together fit 64 bits.
   */
  lemma FilterSummaryAccepted(s: State, m: Machine, frame: Frame)
    requires Inv(m) && m.filter.latch == Known && m.filter.cr3 <= MAX64 && TotalCounts(m.vcpus).Some?
    requires forall i :: 0 <= i < |m.vcpus| ==> m.vcpus[i].life != Active
    requires AwaitsFilter(s, m.filter, TotalRows(m.vcpus)) && frame == FilterFrame(m.filter, TotalCounts(m.vcpus).value)
    ensures var k := TotalCounts(m.vcpus).value;
      && Balanced(m.filter.policy, k) && k.kept == TotalRows(m.vcpus)
      && AcceptSingle(s, frame.header, frame.payload) ==
           if k.kept + k.dropped <= MAX64 then Some(s.(filterSeen := true)) else None
  {
    hide AcceptSingle, Booked, Balanced, TotalCounts, TotalRows, FilterFrame, AwaitsFilter;
    TotalsBalance(m.filter.policy, m.vcpus);
    BalancedAccepted(s, m.filter, TotalCounts(m.vcpus).value);
  }

  /** The validator's equations are the balance of the books and the latched root. */
  lemma BalancedAccepted(s: State, f: Filter, k: Counts)
    requires f.latch == Known && f.cr3 <= MAX64 && f.root == PagingRoot(f.cr3) && AwaitsFilter(s, f, k.kept)
    requires k.kept <= MAX64 && k.dropped <= MAX64 && k.matching <= MAX64 && k.foreign <= MAX64 && k.unknown <= MAX64
    requires Balanced(f.policy, k)
    ensures AcceptSingle(s, FilterFrame(f, k).header, FilterFrame(f, k).payload) ==
      if k.kept + k.dropped <= MAX64 then Some(s.(filterSeen := true)) else None
  {
    hide AcceptSingle, LegalHeader, FilterBytes, AllSeenEnded, FilterTotalsAt, Balanced, PolicyCode, LatchCode;
    FilterRoundTrip(f, k);
    FilterLegal();
    Dispatch(s, FilterFrame(f, k).header, FilterFrame(f, k).payload);
    SeenEnded(s, f.source);
    BalanceCloses(f, k);
  }

  /** The books' balance is the validator's, up to the sum that must fit. */
  lemma BalanceCloses(f: Filter, k: Counts)
    requires f.latch == Known && f.root == PagingRoot(f.cr3) && Balanced(f.policy, k)
    ensures var t := FilterTotals(PolicyCode(f.policy), LatchCode(f.latch), f.source, 0, f.cr3, f.root,
                                  k.kept, k.dropped, k.matching, k.foreign, k.unknown);
      ClosesFilter(t, k.kept) <==> k.kept + k.dropped <= MAX64
  {
  }

  lemma FilterLegal()
    ensures LegalHeader(Header(Kind.ContextFilter, 0, 1, 0, FILTER_BYTES, VERSION))
  {
  }

  lemma SeenEnded(s: State, i: nat)
    requires AllSeenEnded(s) && i < MAX_SOURCES && s.sources[i].seen
    ensures s.sources[i].ended
  {
  }

  // ---------------------------------------------------------------- the rows the stream counted

  /** Memory rows carried by a list of frames. */
  function MemoryRows(frames: seq<Frame>): nat {
    if frames == [] then 0
    else
      var h := frames[|frames| - 1].header;
      MemoryRows(frames[..|frames| - 1]) + if h.kind == Memory then h.count else 0
  }

  lemma SourceFilterRows(s: State, h: Header, b: seq<byte>, t: State)
    requires LegalHeader(h) && |b| == PayloadSize(h) && (h.kind == RegisterSchema || Sequenced(h.kind))
    requires AcceptSource(s, h, b) == Some(t)
    ensures t.filterRows == s.filterRows + if s.features.contextFilter && h.kind == Memory then h.count else 0
  {
    hide LegalHeader, AcceptRows, Declare, BaselineComplete, NeedsBaseline;
  }

  lemma GlobalFilterRows(s: State, h: Header, b: seq<byte>, t: State)
    requires |b| == PayloadSize(h) && AcceptSingle(s, h, b) == Some(t) && Global(h.kind) && s.started
    ensures t.filterRows == s.filterRows && t.features == s.features && t.started
  {
    hide LegalHeader, AcceptSource, AcceptTransitions, AcceptReducedContext, AcceptSummary, AcceptWindow, ClosesFilter,
      BoundaryReady, FilterTotalsAt, AllSeenEnded, FeaturesOf;
  }

  lemma ReportFilterRows(s: State, h: Header, b: seq<byte>, t: State)
    requires |b| == PayloadSize(h) && h.source < MAX_SOURCES
    requires || (h.kind == BlockTransitions && h.count * TRANSITION_BYTES <= |b| &&
                 AcceptTransitions(s, h, TransitionRows(b, h.count)) == Some(t))
             || (h.kind == ReducedContext && 0 < h.count && h.count * REDUCED_CONTEXT_BYTES <= |b| &&
                 AcceptReducedContext(s, h, b) == Some(t))
             || (h.kind == ObservationSummary && SUMMARY_BYTES <= |b| && AcceptSummary(s, h, b) == Some(t))
             || (h.kind == TransitionWindow && WINDOW_BYTES <= |b| && AcceptWindow(s, h, b) == Some(t))
    ensures t.filterRows == s.filterRows && t.features == s.features && t.started == s.started
  {
    hide NewRows, Transitions.SumCounts, KeysOf, ClosesWindow, ClosesSource, WindowTotalsAt, ReductionAt,
      TransitionRows, ValidReducedRow, ReducedBlock;
  }

  lemma StepFilterRows(s: State, h: Header, b: seq<byte>, t: State)
    requires |b| == PayloadSize(h) && AcceptSingle(s, h, b) == Some(t) && s.started
    ensures t.started && t.features == s.features
    ensures t.filterRows == s.filterRows + if s.features.contextFilter && h.kind == Memory then h.count else 0
  {
    hide AcceptSingle, AcceptSource, LegalHeader, AcceptTransitions, AcceptReducedContext, AcceptSummary, AcceptWindow,
      TransitionRows;
    if Global(h.kind) {
      GlobalFilterRows(s, h, b, t);
    } else {
      SourceStep(s, h, b, t);
      LegalFields(h);
      if h.kind == RegisterSchema || Sequenced(h.kind) {
        SourceFilterRows(s, h, b, t);
        BoundaryRuns.SourceKeepsWindows(s, h, b, t);
      } else {
        ReportFilterRows(s, h, b, t);
      }
    }
  }

  /** What the validator counts is exactly the memory rows on the wire. */
  lemma {:induction false} FilterRowsCounted(s: State, frames: seq<Frame>, t: State)
    requires s.started && s.features.contextFilter && Sized(frames) && AcceptSingles(s, frames) == Some(t)
    ensures t.started && t.features == s.features && t.filterRows == s.filterRows + MemoryRows(frames)
  {
    hide AcceptSingle;
    if frames == [] {
    } else {
      var front, last := frames[..|frames| - 1], frames[|frames| - 1];
      var u := AcceptSingles(s, front).value;
      FilterRowsCounted(s, front, u);
      assert WellSized(last);
      StepFilterRows(u, last.header, last.payload, t);
    }
  }
}
