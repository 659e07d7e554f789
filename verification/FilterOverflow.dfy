/**
Kept and dropped totals that each fit 64 bits need not fit together: a run of the
filter that ends normally and whose summary the validator rejects.
*/
module FilterOverflow {
  import opened Words
  import opened Validator
  import opened ContextFilters
  import opened FilterRuns

  lemma {:induction false} RunAppend(m: Machine, a: seq<Event>, b: seq<Event>)
    requires RunEvents(m, a).Some?
    ensures RunEvents(m, a + b) == RunEvents(RunEvents(m, a).value, b)
  {
    hide Step;
    if b == [] {
      assert a + b == a;
    } else {
      assert (a + b)[..|a + b| - 1] == a + b[..|b| - 1];
      RunAppend(m, a, b[..|b| - 1]);
    }
  }

  /** One more event. */
  lemma RunOne(m: Machine, events: seq<Event>, t: Machine, e: Event, u: Machine)
    requires RunEvents(m, events) == Some(t) && Step(t, e) == Some(u)
    ensures RunEvents(m, events + [e]) == Some(u)
  {
    hide Step;
    assert (events + [e])[..|events|] == events;
  }

  function Accesses(i: nat, n: nat): seq<Event> {
    seq(n, _ => Access(i))
  }

  /** Any number of accesses of a vCPU that is not admitted: none of them emits a row. */
  lemma {:induction false} ManyAccesses(m: Machine, i: nat, n: nat)
    requires i < |m.vcpus| && m.vcpus[i].life == Active && m.vcpus[i].stage == Outside && !m.vcpus[i].admission
    ensures RunEvents(m, Accesses(i, n)) ==
      Some(SetVcpu(m, i, m.vcpus[i].(accesses := m.vcpus[i].accesses + n)))
  {
    if n == 0 {
      assert SetVcpu(m, i, m.vcpus[i]) == m;
    } else {
      ManyAccesses(m, i, n - 1);
      assert Accesses(i, n)[..n - 1] == Accesses(i, n - 1);
      var v := m.vcpus[i];
      var less, more := v.(accesses := v.accesses + n - 1), v.(accesses := v.accesses + n);
      assert m.vcpus[i := less][i := more] == m.vcpus[i := more];
    }
  }

  // ---------------------------------------------------------------- steps of a machine of two vCPUs

  function Two(f: Filter, gate: nat, running: bool, v: Vcpu, w: Vcpu): Machine {
    Machine(f, gate, running, [v, w])
  }

  lemma SetFirst(f: Filter, gate: nat, running: bool, v: Vcpu, w: Vcpu, x: Vcpu)
    ensures SetVcpu(Two(f, gate, running, v, w), 0, x) == Two(f, gate, running, x, w)
    ensures SetVcpu(Two(f, gate, running, v, w), 1, x) == Two(f, gate, running, v, x)
  {
    assert [v, w][0 := x] == [x, w] && [v, w][1 := x] == [v, x];
  }

  lemma Starts(f: Filter, gate: nat, v: Vcpu, w: Vcpu)
    requires v.life == Unused && w.life == Unused
    ensures Step(Two(f, gate, false, v, w), Start(0)) == Some(Two(f, gate, false, v.(life := Active), w))
    ensures Step(Two(f, gate, false, v, w), Start(1)) == Some(Two(f, gate, false, v, w.(life := Active)))
  {
    hide AdvanceStep, BlockStep, Attribute;
    SetFirst(f, gate, false, v, w, v.(life := Active));
    SetFirst(f, gate, false, v, w, w.(life := Active));
  }

  lemma StartsSecond(f: Filter, gate: nat, v: Vcpu, w: Vcpu)
    requires w.life == Unused
    ensures Step(Two(f, gate, false, v, w), Start(1)) == Some(Two(f, gate, false, v, w.(life := Active)))
  {
    hide AdvanceStep, BlockStep, Attribute;
    SetFirst(f, gate, false, v, w, w.(life := Active));
  }

  /** A vCPU with nothing to attribute enters the gate block. */
  lemma EntersGate(f: Filter, gate: nat, v: Vcpu, w: Vcpu, cr3: nat)
    requires v.life == Active && v.stage == Outside && Attribute(f.policy, v) == Some(v)
    ensures Step(Two(f, gate, false, v, w), Block(0, gate, cr3)) ==
      Some(Two(f, gate, false, v.(recording := true, stage := AtGate(cr3)), w))
  {
    hide AdvanceStep, Attribute, Refresh;
    SetFirst(f, gate, false, v, w, v.(recording := true, stage := AtGate(cr3)));
  }

  lemma Claims(f: Filter, gate: nat, v: Vcpu, w: Vcpu, cr3: nat)
    requires v.life == Active && v.stage == AtGate(cr3) && f.latch == Waiting
    ensures Step(Two(f, gate, false, v, w), Advance(0)) ==
      Some(Two(f.(latch := Writing), gate, false, v.(stage := Claimed(cr3)), w))
  {
    hide BlockStep, Attribute, Refresh, Latched;
    SetFirst(f, gate, false, v, w, v.(stage := Claimed(cr3)));
  }

  lemma Stores(f: Filter, gate: nat, v: Vcpu, w: Vcpu, cr3: nat)
    requires v.life == Active && v.stage == Claimed(cr3)
    ensures Step(Two(f, gate, false, v, w), Advance(0)) ==
      Some(Two(Latched(f, 0, gate, cr3, true), gate, false, v.(stage := Stored(cr3)), w))
  {
    hide BlockStep, Attribute, Refresh, Latched;
    SetFirst(f, gate, false, v, w, v.(stage := Stored(cr3)));
  }

  lemma Enters(f: Filter, gate: nat, v: Vcpu, w: Vcpu, cr3: nat)
    requires v.life == Active && v.stage == Stored(cr3) && RelationOf(f, cr3, true) == Matching
    ensures Step(Two(f, gate, false, v, w), Advance(0)) ==
      Some(Two(f, gate, false, v.(relation := Matching, admission := true, stage := Admitted), w))
  {
    hide BlockStep, Attribute, Latched, RelationOf;
    SetFirst(f, gate, false, v, w, v.(relation := Matching, admission := true, stage := Admitted));
  }

  lemma Opens(f: Filter, gate: nat, v: Vcpu, w: Vcpu)
    requires v.life == Active && v.stage == Admitted
    ensures Step(Two(f, gate, false, v, w), Advance(0)) == Some(Two(f, gate, true, v.(stage := Outside), w))
  {
    hide BlockStep, Attribute, Latched, Refresh;
    SetFirst(f, gate, false, v, w, v.(stage := Outside));
  }

  lemma EntersForeign(f: Filter, gate: nat, v: Vcpu, w: Vcpu, cr3: nat)
    requires w.life == Active && w.stage == Outside && Attribute(f.policy, w) == Some(w)
    requires RelationOf(f, cr3, true) == Foreign && f.policy == Drop
    ensures Step(Two(f, gate, true, v, w), Block(1, 1, cr3)) ==
      Some(Two(f, gate, true, v, w.(recording := true, relation := Foreign, admission := false)))
  {
    hide AdvanceStep, Attribute, RelationOf;
    SetFirst(f, gate, true, v, w, w.(recording := true, relation := Foreign, admission := false));
  }

  lemma Kept(f: Filter, gate: nat, v: Vcpu, w: Vcpu)
    requires v.life == Active && v.stage == Outside && v.admission && v.recording
    ensures Step(Two(f, gate, true, v, w), Access(0)) ==
      Some(Two(f, gate, true, v.(accesses := v.accesses + 1, rows := v.rows + 1), w))
  {
    hide AdvanceStep, BlockStep, Attribute;
    SetFirst(f, gate, true, v, w, v.(accesses := v.accesses + 1, rows := v.rows + 1));
  }

  lemma Exits(f: Filter, gate: nat, v: Vcpu, w: Vcpu, x: Vcpu)
    ensures v.life == Active && v.stage == Outside && Attribute(f.policy, v) == Some(x) ==>
      Step(Two(f, gate, true, v, w), Exit(0)) == Some(Two(f, gate, true, x.(life := Ended), w))
    ensures w.life == Active && w.stage == Outside && Attribute(f.policy, w) == Some(x) ==>
      Step(Two(f, gate, true, v, w), Exit(1)) == Some(Two(f, gate, true, v, x.(life := Ended)))
  {
    hide AdvanceStep, BlockStep, Attribute;
    SetFirst(f, gate, true, v, w, x.(life := Ended));
  }

  // ---------------------------------------------------------------- the run

  lemma NothingToAttribute(v: Vcpu)
    requires v.accesses == v.base == 0 && !v.recording
    ensures Attribute(Drop, v) == Some(v)
  {
  }

  lemma FirstBooks(v: Vcpu)
    requires v.recording && v.base == 0 && v.counts == NO_COUNTS && v.accesses <= MAX64
    ensures v.relation == Matching ==>
      Attribute(Drop, v) == Some(v.(base := v.accesses, counts := Counts(v.accesses, 0, v.accesses, 0, 0)))
    ensures v.relation == Foreign ==>
      Attribute(Drop, v) == Some(v.(base := v.accesses, counts := Counts(0, v.accesses, 0, v.accesses, 0)))
  {
    hide Account;
    FirstAccounts(v.counts, v.accesses);
  }

  lemma FirstAccounts(k: Counts, n: nat)
    requires k == NO_COUNTS && n <= MAX64
    ensures Account(Drop, k, Matching, n) == Some(Counts(n, 0, n, 0, 0))
    ensures Account(Drop, k, Foreign, n) == Some(Counts(0, n, 0, n, 0))
  {
  }

  lemma Relations(gate: nat, f: Filter)
    requires f == Filter(Drop, Waiting, 0, 0, 0, 0)
    ensures var g := Latched(f.(latch := Writing), 0, gate, 0, true);
      && g.policy == Drop && g.latch == Known
      && RelationOf(g, 0, true) == Matching && RelationOf(g, 4096, true) == Foreign
  {
  }

  /** vCPU 0 wins the gate and is admitted; vCPU 1 has started. */
  lemma Opening(f: Filter, gate: nat, v: Vcpu) returns (events: seq<Event>)
    requires f == Filter(Drop, Waiting, 0, 0, 0, 0) && v == FRESH
    ensures RunEvents(Two(f, gate, false, v, v), events) ==
      Some(Two(Latched(f.(latch := Writing), 0, gate, 0, true), gate, true,
               v.(life := Active, recording := true, relation := Matching, admission := true), v.(life := Active)))
  {
    hide Step, Attribute, RelationOf, Latched, RunEvents;
    var m, a := Two(f, gate, false, v, v), v.(life := Active);
    var g, l := f.(latch := Writing), Latched(f.(latch := Writing), 0, gate, 0, true);
    Relations(gate, f);
    Starts(f, gate, v, v);
    StartsSecond(f, gate, a, v);
    NothingToAttribute(a);
    EntersGate(f, gate, a, a, 0);
    var b := a.(recording := true, stage := AtGate(0));
    Claims(f, gate, b, a, 0);
    Stores(g, gate, b.(stage := Claimed(0)), a, 0);
    Enters(l, gate, b.(stage := Stored(0)), a, 0);
    var c := b.(stage := Admitted, relation := Matching, admission := true);
    Opens(l, gate, c, a);
    Nothing(m);
    events := [];
    RunOne(m, events, m, Start(0), Two(f, gate, false, a, v));
    events := events + [Start(0)];
    RunOne(m, events, Two(f, gate, false, a, v), Start(1), Two(f, gate, false, a, a));
    events := events + [Start(1)];
    RunOne(m, events, Two(f, gate, false, a, a), Block(0, gate, 0), Two(f, gate, false, b, a));
    events := events + [Block(0, gate, 0)];
    RunOne(m, events, Two(f, gate, false, b, a), Advance(0), Two(g, gate, false, b.(stage := Claimed(0)), a));
    events := events + [Advance(0)];
    RunOne(m, events, Two(g, gate, false, b.(stage := Claimed(0)), a), Advance(0),
           Two(l, gate, false, b.(stage := Stored(0)), a));
    events := events + [Advance(0)];
    RunOne(m, events, Two(l, gate, false, b.(stage := Stored(0)), a), Advance(0), Two(l, gate, false, c, a));
    events := events + [Advance(0)];
    RunOne(m, events, Two(l, gate, false, c, a), Advance(0), Two(l, gate, true, c.(stage := Outside), a));
    events := events + [Advance(0)];
  }

  lemma Nothing(m: Machine)
    ensures RunEvents(m, []) == Some(m)
  {
  }

  /** One kept access, `n` dropped ones, and both vCPUs exit. */
  lemma Closing(f: Filter, gate: nat, v: Vcpu, w: Vcpu, n: nat) returns (events: seq<Event>, x: Vcpu, y: Vcpu)
    requires f.policy == Drop && RelationOf(f, 4096, true) == Foreign && n <= MAX64
    requires v == FRESH.(life := Active, recording := true, relation := Matching, admission := true)
    requires w == FRESH.(life := Active)
    ensures RunEvents(Two(f, gate, true, v, w), events) == Some(Two(f, gate, true, x, y))
    ensures x.life == y.life == Ended && x.accesses == 1 && y.accesses == n
    ensures x.counts == Counts(1, 0, 1, 0, 0) && y.counts == Counts(0, n, 0, n, 0)
  {
    hide Step, Attribute, RelationOf, RunEvents;
    var m := Two(f, gate, true, v, w);
    var a := v.(accesses := 1, rows := 1);
    Kept(f, gate, v, w);
    NothingToAttribute(w);
    EntersForeign(f, gate, a, w, 4096);
    var b := w.(recording := true, relation := Foreign, admission := false);
    var c := b.(accesses := n);
    ManyAccesses(Two(f, gate, true, a, b), 1, n);
    SetFirst(f, gate, true, a, b, c);
    FirstBooks(a);
    FirstBooks(c);
    var d, e := a.(base := 1, counts := Counts(1, 0, 1, 0, 0)), c.(base := n, counts := Counts(0, n, 0, n, 0));
    Exits(f, gate, a, c, d);
    x, y := d.(life := Ended), e.(life := Ended);
    Exits(f, gate, x, c, e);
    Nothing(m);
    events := [];
    RunOne(m, events, m, Access(0), Two(f, gate, true, a, w));
    events := events + [Access(0)];
    RunOne(m, events, Two(f, gate, true, a, w), Block(1, 1, 4096), Two(f, gate, true, a, b));
    events := events + [Block(1, 1, 4096)];
    RunAppend(m, events, Accesses(1, n));
    events := events + Accesses(1, n);
    RunOne(m, events, Two(f, gate, true, a, c), Exit(0), Two(f, gate, true, x, c));
    events := events + [Exit(0)];
    RunOne(m, events, Two(f, gate, true, x, c), Exit(1), Two(f, gate, true, x, y));
    events := events + [Exit(1)];
  }

  lemma Sums(n: nat)
    requires n <= MAX64
    ensures AddCounts(NO_COUNTS, Counts(1, 0, 1, 0, 0)) == Some(Counts(1, 0, 1, 0, 0))
    ensures AddCounts(Counts(1, 0, 1, 0, 0), Counts(0, n, 0, n, 0)) == Some(Counts(1, n, 1, n, 0))
  {
    hide AddCounts;
    AddFits(0, 0, 1, 0);
    AddFits(1, 0, 0, n);
  }

  /** Books of matching and foreign accesses that fit together. */
  lemma AddFits(a: nat, b: nat, c: nat, d: nat)
    requires a + c <= MAX64 && b + d <= MAX64
    ensures AddCounts(Counts(a, b, a, b, 0), Counts(c, d, c, d, 0)) == Some(Counts(a + c, b + d, a + c, b + d, 0))
  {
  }

  lemma {:induction false} TwoTotals(x: Vcpu, y: Vcpu, n: nat)
    requires x.counts == Counts(1, 0, 1, 0, 0) && y.counts == Counts(0, n, 0, n, 0) && n <= MAX64
    ensures TotalCounts([x, y]) == Some(Counts(1, n, 1, n, 0))
  {
    hide AddCounts, TotalCounts;
    Sums(n);
    NoCounts();
    AppendCounts([], x);
    AppendCounts([x], y);
    assert [] + [x] == [x] && [x] + [y] == [x, y];
  }

  lemma NoCounts()
    ensures TotalCounts([]) == Some(NO_COUNTS)
  {
  }

  lemma AppendCounts(vs: seq<Vcpu>, v: Vcpu)
    ensures TotalCounts(vs + [v]) ==
      if TotalCounts(vs).None? then None else AddCounts(TotalCounts(vs).value, v.counts)
  {
    hide AddCounts;
    assert (vs + [v])[..|vs|] == vs;
  }

  /**
   * A reachable, finished run - one kept access on the gate's vCPU and 2^64 - 1
   * dropped ones on another, which emit no rows - whose totals each fit and whose
   * summary every stream that carried its rows rejects.
   */
  lemma SumOverflows(gate: nat) returns (events: seq<Event>, m: Machine)
    ensures RunEvents(Machine(Filter(Drop, Waiting, 0, 0, 0, 0), gate, false, [FRESH, FRESH]), events) == Some(m)
    ensures m.filter.latch == Known && forall i :: 0 <= i < |m.vcpus| ==> m.vcpus[i].life == Ended
    ensures TotalCounts(m.vcpus) == Some(Counts(1, MAX64, 1, MAX64, 0))
    ensures forall s: State :: AwaitsFilter(s, m.filter, TotalRows(m.vcpus)) ==>
      var frame := FilterFrame(m.filter, TotalCounts(m.vcpus).value);
      AcceptSingle(s, frame.header, frame.payload) == None
  {
    hide RunEvents, RelationOf, Latched, TotalCounts, TotalRows, Inv, AcceptSingle, FilterFrame;
    var f, v := Filter(Drop, Waiting, 0, 0, 0, 0), FRESH;
    Relations(gate, f);
    var opening := Opening(f, gate, v);
    var g := Latched(f.(latch := Writing), 0, gate, 0, true);
    var a := v.(life := Active, recording := true, relation := Matching, admission := true);
    var closing, x, y := Closing(g, gate, a, v.(life := Active), MAX64);
    RunAppend(Two(f, gate, false, v, v), opening, closing);
    events := opening + closing;
    m := Two(g, gate, true, x, y);
    TwoTotals(x, y, MAX64);
    StartInv(Drop, gate, [v, v]);
    RunKeeps(Two(f, gate, false, v, v), events);
    LatchedRoot(f, gate);
    forall s: State | AwaitsFilter(s, m.filter, TotalRows(m.vcpus))
      ensures var frame := FilterFrame(m.filter, TotalCounts(m.vcpus).value);
        AcceptSingle(s, frame.header, frame.payload) == None
    {
      FilterSummaryAccepted(s, m, FilterFrame(m.filter, TotalCounts(m.vcpus).value));
    }
  }

  lemma LatchedRoot(f: Filter, gate: nat)
    ensures Latched(f.(latch := Writing), 0, gate, 0, true).cr3 == 0
  {
  }
}
