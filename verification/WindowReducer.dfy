/**
The action-window reducer: one open-addressed count table per vCPU, cleared in
constant time by stamping slots with the window that wrote them.
*/
module WindowReducer {
  import opened Words
  import opened Transitions
  import opened Probe


  datatype Slot = Slot(window: u64, pair: Pair, count: nat)

  datatype Phase = Idle | Opening | Recording | Ended | Aborted

  /** What an admitted block carries from `admit` to `observe`. */
  datatype Admission = Admission(window: u64, included: bool)

  datatype Status = NoWindow | WindowEnded | WindowAborted | WindowIncomplete

  datatype Summary = Summary(id: u64, status: Status, sources: nat, capacity: nat,
                             distinct: nat, observed: nat, overflow: nat)

  /** The table of a slot array as seen from one window: other stamps are free cells. */
  ghost function Cells(slots: seq<Slot>, window: u64): (cells: seq<Cell<Pair>>)
    ensures |cells| == |slots|
  {
    seq(|slots|, i requires 0 <= i < |slots| => if slots[i].window == window then Used(slots[i].pair) else Free)
  }

  /** The masked hash `hash(p) & (capacity - 1)` for a power-of-two capacity. */
  function Masked(hash: Pair -> nat, capacity: nat): (home: Pair -> nat)
    requires capacity > 0
    ensures Homes(home, capacity)
  {
    p => hash(p) % capacity
  }

  /** The index list names the live slots, in row order, with exact counts. */
  ghost predicate Indexed(slots: seq<Slot>, indices: seq<nat>, window: u64, ps: seq<Pair>) {
    var kept := Retained(ps, |slots|);
    && |indices| == |kept|
    && (forall i :: 0 <= i < |indices| ==>
          && indices[i] < |slots|
          && slots[indices[i]] == Slot(window, kept[i], multiset(ps)[kept[i]]))
    && (forall p :: 0 <= p < |slots| && slots[p].window == window ==> p in indices)
  }

  ghost predicate Counted(slots: seq<Slot>, indices: seq<nat>, window: u64, ps: seq<Pair>, home: Pair -> nat) {
    |slots| > 0 && Table(Cells(slots, window), home) && Indexed(slots, indices, window, ps)
  }

  /** No slot carries a window that has not begun yet, so a new stamp finds an empty table. */
  lemma NewWindow(slots: seq<Slot>, window: u64, home: Pair -> nat)
    requires |slots| > 0 && Homes(home, |slots|)
    requires forall p :: 0 <= p < |slots| ==> slots[p].window < window
    ensures Counted(slots, [], window, [], home)
  {
  }

  lemma IndicesDistinct(slots: seq<Slot>, indices: seq<nat>, window: u64, ps: seq<Pair>)
    requires Indexed(slots, indices, window, ps)
    ensures Distinct(indices) && |indices| <= |slots|
    ensures (exists p: nat :: p < |slots| && slots[p].window != window) ==> |indices| < |slots|
    ensures (forall p :: 0 <= p < |slots| ==> slots[p].window == window) ==> |indices| == |slots|
  {
    RetainedDistinct(ps, |slots|);
    Pigeonhole(indices, |slots|);
    if p: nat :| p < |slots| && slots[p].window != window {
      assert p !in indices;
    }
  }

  lemma KeysAreRetained(slots: seq<Slot>, indices: seq<nat>, window: u64, ps: seq<Pair>)
    requires Indexed(slots, indices, window, ps)
    ensures forall q :: q in Keys(Cells(slots, window)) <==> q in Retained(ps, |slots|)
  {
    var cells, kept := Cells(slots, window), Retained(ps, |slots|);
    forall q | q in kept ensures q in Keys(cells) {
      var i :| 0 <= i < |kept| && kept[i] == q;
      assert cells[indices[i]] == Used(q);
    }
    forall q | q in Keys(cells) ensures q in kept {
      var p :| 0 <= p < |cells| && cells[p].Used? && cells[p].key == q;
      var i :| 0 <= i < |indices| && indices[i] == p;
      assert kept[i] == q;
    }
  }

  /** A free slot on the probe path: a new pair, and always room in the index list. */
  lemma CountNew(slots: seq<Slot>, indices: seq<nat>, window: u64, ps: seq<Pair>, home: Pair -> nat, q: Pair, at: nat)
    requires Counted(slots, indices, window, ps, home)
    requires at < |slots| && slots[at].window != window
    requires Passed(Cells(slots, window), home, q, Distance(home(q), at, |slots|))
    ensures |indices| < |slots|
    ensures Counted(slots[at := Slot(window, q, 1)], indices + [at], window, ps + [q], home)
    ensures Overflow(ps + [q], |slots|) == Overflow(ps, |slots|)
  {
    var cells := Cells(slots, window);
    IndicesDistinct(slots, indices, window, ps);
    FreeMeansAbsent(cells, home, q, at);
    KeysAreRetained(slots, indices, window, ps);
    IndexNew(slots, indices, window, ps, q, at);
    assert Cells(slots[at := Slot(window, q, 1)], window) == cells[at := Used(q)];
    RetainedStep(ps, q, |slots|);
    MissedStep(ps, q, Retained(ps, |slots|) + [q]);
    MissedExtend(ps, Retained(ps, |slots|), q);
  }

  lemma IndexNew(slots: seq<Slot>, indices: seq<nat>, window: u64, ps: seq<Pair>, q: Pair, at: nat)
    requires Indexed(slots, indices, window, ps) && |indices| < |slots|
    requires at < |slots| && slots[at].window != window
    requires q !in Retained(ps, |slots|)
    ensures Indexed(slots[at := Slot(window, q, 1)], indices + [at], window, ps + [q])
  {
    var kept, after := Retained(ps, |slots|), slots[at := Slot(window, q, 1)];
    RetainedStep(ps, q, |slots|);
    hide Retained;
    assert multiset(ps + [q]) == multiset(ps) + multiset{q};
    forall i | 0 <= i < |indices|
      ensures after[indices[i]] == Slot(window, kept[i], multiset(ps + [q])[kept[i]])
    {
      assert kept[i] in kept;
      assert indices[i] != at;
    }
    forall p | 0 <= p < |after| && after[p].window == window ensures p in indices + [at] {
      if p != at { assert slots[p].window == window; }
    }
  }

  /** A live slot with the same pair: its count goes up by one and stays within `observed`. */
  lemma CountAgain(slots: seq<Slot>, indices: seq<nat>, window: u64, ps: seq<Pair>, home: Pair -> nat, q: Pair, at: nat)
    requires Counted(slots, indices, window, ps, home)
    requires at < |slots| && slots[at].window == window && slots[at].pair == q
    requires |ps| < MAX64
    ensures slots[at].count < MAX64
    ensures Counted(slots[at := slots[at].(count := slots[at].count + 1)], indices, window, ps + [q], home)
    ensures Overflow(ps + [q], |slots|) == Overflow(ps, |slots|)
  {
    var kept := Retained(ps, |slots|);
    var k :| 0 <= k < |indices| && indices[k] == at;
    CountBound(ps, q);
    RetainedDistinct(ps, |slots|);
    RetainedStep(ps, q, |slots|);
    MissedStep(ps, q, kept);
    assert kept[k] == q && q in kept;
    hide Retained, Missed, Reachable;
    var after := slots[at := slots[at].(count := slots[at].count + 1)];
    assert Cells(after, window) == Cells(slots, window);
    assert multiset(ps + [q]) == multiset(ps) + multiset{q};
    forall i | 0 <= i < |indices|
      ensures after[indices[i]] == Slot(window, kept[i], multiset(ps + [q])[kept[i]])
    {
      if i != k { assert kept[i] != q; }
    }
  }

  /** A probe that visited every slot: the table is full of other pairs. */
  lemma CountMissed(slots: seq<Slot>, indices: seq<nat>, window: u64, ps: seq<Pair>, home: Pair -> nat, q: Pair)
    requires Counted(slots, indices, window, ps, home)
    requires Passed(Cells(slots, window), home, q, |slots|)
    ensures Counted(slots, indices, window, ps + [q], home)
    ensures Overflow(ps + [q], |slots|) == Overflow(ps, |slots|) + 1
  {
    var cells := Cells(slots, window);
    PassedAll(cells, home, q);
    assert forall p :: 0 <= p < |slots| ==> slots[p].window == window by {
      forall p | 0 <= p < |slots| ensures slots[p].window == window { assert cells[p].Used?; }
    }
    IndicesDistinct(slots, indices, window, ps);
    KeysAreRetained(slots, indices, window, ps);
    RetainedStep(ps, q, |slots|);
    MissedStep(ps, q, Retained(ps, |slots|));
    assert multiset(ps + [q]) == multiset(ps) + multiset{q};
    forall i | 0 <= i < |indices|
      ensures slots[indices[i]] == Slot(window, Retained(ps, |slots|)[i], multiset(ps + [q])[Retained(ps, |slots|)[i]])
    {
      assert Retained(ps, |slots|)[i] in Retained(ps, |slots|);
    }
  }

  lemma IndexedRows(slots: seq<Slot>, indices: seq<nat>, window: u64, ps: seq<Pair>, home: Pair -> nat)
    requires Counted(slots, indices, window, ps, home)
    ensures |indices| == |Rows(ps, |slots|)|
    ensures forall k :: 0 <= k < |indices| ==>
      indices[k] < |slots| && Row(slots[indices[k]].pair, slots[indices[k]].count) == Rows(ps, |slots|)[k]
  {
    hide Table, Firsts;
  }

  /** One vCPU's table. `history` is the ghost list of blocks admitted to `window`. */
  class WindowSource {
    const home: Pair -> nat
    const slots: array<Slot>
    const indices: array<nat>
    var window: u64
    var previous: u64
    var observed: u64
    var overflow: u64
    var distinct: nat
    var hasPrevious: bool
    ghost var history: seq<u64>

    ghost predicate Valid()
      reads this, slots, indices
    {
      && slots.Length == indices.Length > 0 && Homes(home, slots.Length)
      && (forall p :: 0 <= p < slots.Length ==> slots[p].window <= window)
      && distinct <= indices.Length
      && (window == 0 ==> history == [] && distinct == 0)
      && (hasPrevious <==> history != [])
      && (hasPrevious ==> previous == history[|history| - 1])
      && observed == |Pairs(history)|
      && overflow == Overflow(Pairs(history), slots.Length)
      && (window > 0 ==> Counted(slots[..], indices[..distinct], window, Pairs(history), home))
    }

    constructor (hash: Pair -> nat, capacity: nat)
      requires capacity > 0
      ensures Valid() && window == 0 && history == []
      ensures fresh(slots) && fresh(indices) && slots.Length == capacity
    {
      home := Masked(hash, capacity);
      slots := new Slot[capacity](_ => Slot(0, Pair(0, 0), 0));
      indices := new nat[capacity](_ => 0);
      window, previous, observed, overflow, distinct, hasPrevious := 0, 0, 0, 0, 0, false;
      history := [];
    }

    lemma Meaning()
      requires Valid()
      ensures observed == |Pairs(history)| && overflow == Overflow(Pairs(history), slots.Length)
      ensures distinct == |Rows(Pairs(history), slots.Length)| <= indices.Length
      ensures forall k :: 0 <= k < distinct ==>
        && indices[k] < slots.Length
        && Row(slots[indices[k]].pair, slots[indices[k]].count) == Rows(Pairs(history), slots.Length)[k]
    {
      hide Overflow, Counted, Pairs;
      if window == 0 {
        NothingObserved(slots.Length);
      } else {
        IndexedRows(slots[..], indices[..distinct], window, Pairs(history), home);
        forall k | 0 <= k < distinct
          ensures indices[k] < slots.Length
          ensures Row(slots[indices[k]].pair, slots[indices[k]].count) == Rows(Pairs(history), slots.Length)[k]
        {
          assert indices[..distinct][k] == indices[k];
        }
      }
    }

    method Reset(next: u64)
      requires Valid() && window < next
      modifies this
      ensures Valid() && window == next && history == []
    {
      window := next;
      previous, observed, overflow, distinct, hasPrevious := 0, 0, 0, 0, false;
      history := [];
      NewWindow(slots[..], next, home);
      assert indices[..distinct] == [];
    }

    /** The probe loop: finds the pair, claims a slot for it, or counts it as missed. */
    method Tally(q: Pair, ghost ps: seq<Pair>)
      requires slots.Length == indices.Length > 0 && distinct <= indices.Length && Homes(home, slots.Length)
      requires Counted(slots[..], indices[..distinct], window, ps, home)
      requires forall p :: 0 <= p < slots.Length ==> slots[p].window <= window
      requires overflow == Overflow(ps, slots.Length) && |ps| < MAX64
      modifies this`distinct, this`overflow, slots, indices
      ensures distinct <= indices.Length
      ensures Counted(slots[..], indices[..distinct], window, ps + [q], home)
      ensures forall p :: 0 <= p < slots.Length ==> slots[p].window <= window
      ensures overflow == Overflow(ps + [q], slots.Length)
    {
      hide Overflow, Retained, Reachable, DistinctKeys, Indexed;
      ghost var live, listed := slots[..], indices[..distinct];
      assert |live| == slots.Length;
      var at: nat := home(q);
      var probe := 0;
      while probe < slots.Length
        invariant probe <= slots.Length
        invariant at < slots.Length
        invariant distinct == |listed| <= indices.Length && overflow == old(overflow)
        invariant slots[..] == live && indices[..distinct] == listed
        invariant Passed(Cells(live, window), home, q, probe)
        invariant probe < slots.Length ==> Distance(home(q), at, slots.Length) == probe
      {
        var slot := slots[at];
        if slot.window != window {
          CountNew(live, listed, window, ps, home, q, at);
          assert distinct != indices.Length;
          slots[at] := Slot(window, q, 1);
          indices[distinct] := at;
          distinct := distinct + 1;
          assert indices[..distinct] == listed + [at];
          assert slots[..] == live[at := Slot(window, q, 1)];
          return;
        }
        if slot.pair == q {
          CountAgain(live, listed, window, ps, home, q, at);
          assert slot.count != MAX64;
          slots[at] := slot.(count := slot.count + 1);
          assert slots[..] == live[at := slot.(count := slot.count + 1)];
          return;
        }
        PassedStep(Cells(live, window), home, q, probe, at);
        at := Probe.Next(at, slots.Length);
        probe := probe + 1;
      }
      CountMissed(live, listed, window, ps, home, q);
      assert overflow != MAX64;
      overflow := overflow + 1;
    }

    /**
    Counts one admitted block. The only failure is an exhausted 64-bit transition
    count; the asserts in `Tally` show the table's own failure returns unreachable.
    */
    method Observe(current: u64, address: u64) returns (ok: bool)
      requires Valid() && 0 < current && window <= current
      modifies this, slots, indices
      ensures Valid() && window == current
      ensures var before := if old(window) == current then old(history) else [];
        && (ok <==> |before| <= MAX64)
        && history == if ok then before + [address] else before
    {
      hide Counted, Overflow, Pairs;
      if window != current { Reset(current); }
      if !hasPrevious {
        previous := address;
        hasPrevious := true;
        history := history + [address];
        assert Pairs(history) == [];
        return true;
      }
      if observed == MAX64 { return false; }
      ghost var ps := Pairs(history);
      observed := observed + 1;
      var q := Pair(previous, address);
      previous := address;
      PairsStep(history, address);
      history := history + [address];
      Tally(q, ps);
      return true;
    }
  }

  /** The reducer without its tables: which blocks each vCPU entered in the current window. */
  datatype Model = Model(capacity: nat, phase: Phase, window: u64, blocks: seq<seq<u64>>)

  function NoBlocks(sources: nat): (b: seq<seq<u64>>)
    ensures |b| == sources && forall i :: 0 <= i < sources ==> b[i] == []
  {
    seq(sources, _ => [])
  }

  function TotalObserved(blocks: seq<seq<u64>>): nat {
    if blocks == [] then 0 else TotalObserved(blocks[..|blocks| - 1]) + |Pairs(blocks[|blocks| - 1])|
  }

  function TotalDistinct(blocks: seq<seq<u64>>, capacity: nat): nat {
    if blocks == [] then 0
    else TotalDistinct(blocks[..|blocks| - 1], capacity) + |Rows(Pairs(blocks[|blocks| - 1]), capacity)|
  }

  lemma RowsFit(ps: seq<Pair>, capacity: nat)
    ensures |Rows(ps, capacity)| == Min(capacity, |Firsts(ps)|) <= capacity
  {
  }

  lemma NothingObserved(capacity: nat)
    ensures Pairs([]) == [] && Rows(Pairs([]), capacity) == [] && Overflow(Pairs([]), capacity) == 0
  {
  }

  lemma OneMore(n: nat, capacity: nat)
    ensures (n + 1) * capacity == n * capacity + capacity
  {
  }

  lemma {:induction false} DistinctFits(blocks: seq<seq<u64>>, capacity: nat)
    ensures TotalDistinct(blocks, capacity) <= |blocks| * capacity
  {
    if blocks == [] {
    } else {
      var last := |blocks| - 1;
      DistinctFits(blocks[..last], capacity);
      RowsFit(Pairs(blocks[last]), capacity);
      OneMore(last, capacity);
    }
  }

  function TotalOverflow(blocks: seq<seq<u64>>, capacity: nat): (n: nat)
    ensures n <= TotalObserved(blocks)
  {
    if blocks == [] then 0
    else TotalOverflow(blocks[..|blocks| - 1], capacity) + Overflow(Pairs(blocks[|blocks| - 1]), capacity)
  }

  /** What `close` reports about the window it closes. */
  function Closing(m: Model): Summary
    requires m.phase != Idle
  {
    Summary(m.window,
            if m.phase == Ended then WindowEnded else if m.phase == Aborted then WindowAborted else WindowIncomplete,
            |m.blocks|, m.capacity,
            TotalDistinct(m.blocks, m.capacity), TotalObserved(m.blocks), TotalOverflow(m.blocks, m.capacity))
  }

  lemma {:induction false} TotalsGrow(blocks: seq<seq<u64>>, n: nat)
    requires n <= |blocks|
    ensures TotalObserved(blocks[..n]) <= TotalObserved(blocks)
  {
    if n == |blocks| {
      assert blocks[..n] == blocks;
    } else {
      TotalsGrow(blocks[..|blocks| - 1], n);
      assert blocks[..|blocks| - 1][..n] == blocks[..n];
    }
  }

  /** Adding the next vCPU to the totals; only the transition total can leave 64 bits. */
  lemma TotalsStep(blocks: seq<seq<u64>>, n: nat, capacity: nat)
    requires n < |blocks| && |blocks| * capacity <= MAX_TRANSITION_SLOTS
    ensures TotalDistinct(blocks[..n + 1], capacity) ==
      TotalDistinct(blocks[..n], capacity) + |Rows(Pairs(blocks[n]), capacity)| <= MAX_TRANSITION_SLOTS
    ensures TotalObserved(blocks[..n + 1]) == TotalObserved(blocks[..n]) + |Pairs(blocks[n])| <= TotalObserved(blocks)
    ensures TotalOverflow(blocks[..n + 1], capacity) ==
      TotalOverflow(blocks[..n], capacity) + Overflow(Pairs(blocks[n]), capacity) <= TotalObserved(blocks)
  {
    assert blocks[..n + 1][..n] == blocks[..n];
    TotalsGrow(blocks, n + 1);
    DistinctFits(blocks[..n + 1], capacity);
    Monotone(n + 1, |blocks|, capacity);
  }

  lemma NoTotals(blocks: seq<seq<u64>>, capacity: nat)
    ensures TotalDistinct(blocks[..0], capacity) == 0
    ensures TotalObserved(blocks[..0]) == TotalOverflow(blocks[..0], capacity) == 0
  {
  }

  lemma Monotone(a: nat, b: nat, capacity: nat)
    requires a <= b
    ensures a * capacity <= b * capacity
  {
  }

  predicate Configurable(sources: nat, capacity: nat) {
    sources > 0 && capacity >= 2 && PowerOfTwo(capacity) && sources * capacity <= MAX_TRANSITION_SLOTS
  }

  class TransitionWindow {
    const hash: Pair -> nat
    var sources: seq<WindowSource>
    var capacity: nat
    var phase: Phase
    var window: u64

    ghost predicate Separate()
      reads this
    {
      forall i, j :: 0 <= i < j < |sources| ==>
        sources[i] != sources[j] && sources[i].slots != sources[j].slots && sources[i].indices != sources[j].indices
    }

    ghost predicate Valid()
      reads this, sources, (set s | s in sources :: s.slots), (set s | s in sources :: s.indices)
    {
      && (sources == [] ==> phase == Idle && window == 0) && (phase == Recording ==> window > 0)
      && (sources != [] ==> Configurable(|sources|, capacity))
      && Separate()
      && forall s :: s in sources ==> s.Valid() && s.slots.Length == capacity && s.window <= window
    }

    /** Blocks admitted to the current window, per vCPU; older windows are invisible. */
    ghost function Blocks(): (b: seq<seq<u64>>)
      reads this, sources
      ensures |b| == |sources|
    {
      seq(|sources|, i requires 0 <= i < |sources| reads this, sources =>
        if sources[i].window == window then sources[i].history else [])
    }

    ghost function View(): Model
      reads this, sources
    {
      Model(capacity, phase, window, Blocks())
    }

    constructor (hash: Pair -> nat)
      ensures Valid() && View() == Model(0, Idle, 0, [])
    {
      this.hash := hash;
      sources, capacity, phase, window := [], 0, Idle, 0;
    }

    method Configure(count: nat, slotsPerSource: nat) returns (ok: bool)
      requires Valid()
      modifies this
      ensures Valid()
      ensures ok <==> old(sources) == [] && Configurable(count, slotsPerSource)
      ensures !ok ==> sources == old(sources) && View() == old(View())
      ensures ok ==> View() == Model(slotsPerSource, Idle, 0, NoBlocks(count))
    {
      if sources != [] || !Configurable(count, slotsPerSource) { return false; }
      var made: seq<WindowSource> := [];
      while |made| < count
        invariant |made| <= count && unchanged(this)
        invariant forall s :: s in made ==>
          && fresh(s) && fresh(s.slots) && fresh(s.indices)
          && s.Valid() && s.window == 0 && s.history == [] && s.slots.Length == slotsPerSource
        invariant forall i, j :: 0 <= i < j < |made| ==>
          && made[i] != made[j] && made[i].slots != made[j].slots
          && made[i].indices != made[j].indices
      {
        var source := new WindowSource(hash, slotsPerSource);
        made := made + [source];
      }
      sources := made;
      capacity := slotsPerSource;
      hide WindowSource.Valid;
      assert Blocks() == NoBlocks(count) by {
        forall i | 0 <= i < count ensures Blocks()[i] == [] { assert sources[i] in made; }
      }
      return true;
    }

    /** Opens the next window. Identifiers stay fresh until the 64-bit counter wraps. */
    method Begin() returns (ok: bool)
      requires Valid()
      modifies this
      ensures ok <==> sources != [] && old(phase) == Idle && old(window) < MAX64
      ensures sources == old(sources) && capacity == old(capacity)
      ensures ok ==> Valid() && View() == old(View()).(phase := Recording, window := old(window) + 1,
                                                       blocks := NoBlocks(|sources|))
      ensures !ok && (sources == [] || old(phase) != Idle) ==> Valid() && View() == old(View())
      ensures !ok && sources != [] && old(phase) == Idle ==> window == 0 && phase == Idle
    {
      hide WindowSource.Valid, Configurable;
      if sources == [] { return false; }
      if phase != Idle { return false; }
      phase := Opening;
      var previous := window;
      window := if previous == MAX64 then 0 else previous + 1;
      if previous == MAX64 {
        phase := Idle;
        return false;
      }
      phase := Recording;
      assert Blocks() == NoBlocks(|sources|);
      return true;
    }

    method End() returns (ok: bool)
      requires Valid()
      modifies this`phase
      ensures Valid()
      ensures ok <==> old(phase) == Recording
      ensures View() == if ok then old(View()).(phase := Ended) else old(View())
    {
      if phase != Recording { return false; }
      phase := Ended;
      return true;
    }

    method Abort() returns (ok: bool)
      requires Valid()
      modifies this`phase
      ensures Valid()
      ensures ok <==> old(phase) == Recording
      ensures View() == if ok then old(View()).(phase := Aborted) else old(View())
    {
      if phase != Recording { return false; }
      phase := Aborted;
      return true;
    }

    /** What a block entered now may carry: the open window, or nothing. */
    method Admit() returns (a: Admission)
      requires Valid()
      ensures a.included <==> phase == Recording
      ensures a.included ==> a.window == window
    {
      if phase != Recording { return Admission(0, false); }
      return Admission(window, true);
    }

    predicate Open()
      reads this
    {
      phase == Opening || phase == Recording
    }

    /** An admitted block joins its vCPU's list, even if the window ended in between. */
    method Observe(index: nat, address: u64, admission: Admission) returns (ok: bool)
      requires Valid()
      modifies
        if index < |sources| then {sources[index] as object, sources[index].slots, sources[index].indices} else {}
      ensures Valid()
      ensures ok <==>
        && index < |sources|
        && (admission.included ==>
              admission.window != 0 && admission.window == window && |old(Blocks())[index]| <= MAX64)
      ensures View() == if ok && admission.included
                        then old(View()).(blocks := old(Blocks())[index := old(Blocks())[index] + [address]])
                        else old(View())
    {
      hide WindowSource.Valid, Configurable;
      if index >= |sources| { return false; }
      if !admission.included { return true; }
      if admission.window == 0 || window != admission.window { return false; }
      var source := sources[index];
      ok := source.Observe(admission.window, address);
      forall j | 0 <= j < |sources| && j != index
        ensures sources[j].Valid() && sources[j].window == old(sources[j].window)
        ensures sources[j].history == old(sources[j].history)
      {
        assert sources[j] != source && sources[j].slots != source.slots && sources[j].indices != source.indices;
      }
      assert Blocks() == if ok then old(Blocks())[index := old(Blocks())[index] + [address]] else old(Blocks());
    }

    /** Closes the window; fails exactly when the transition total leaves 64 bits. */
    method Close() returns (ok: bool, summary: Summary)
      requires Valid()
      modifies this`phase
      ensures Valid()
      ensures View() == old(View()).(phase := Idle)
      ensures ok <==> old(phase) == Idle || TotalObserved(Blocks()) <= MAX64
      ensures ok && old(phase) == Idle ==> summary == Summary(0, NoWindow, 0, 0, 0, 0, 0)
      ensures ok && old(phase) != Idle ==> summary == Closing(old(View()))
    {
      hide WindowSource.Valid, Rows, Overflow, Pairs, TotalDistinct, TotalObserved, TotalOverflow, PowerOfTwo;
      var state := phase;
      phase := Idle;
      summary := Summary(0, NoWindow, 0, 0, 0, 0, 0);
      if state == Idle { return true, summary; }
      var status :=
        if state == Ended then WindowEnded else if state == Aborted then WindowAborted else WindowIncomplete;
      var distinct, observed, overflow := 0, 0, 0;
      ghost var blocks := Blocks();
      assert blocks == old(Blocks());
      NoTotals(blocks, capacity);
      var index := 0;
      while index < |sources|
        invariant index <= |sources| && phase == Idle && Blocks() == blocks
        invariant distinct == TotalDistinct(blocks[..index], capacity) <= MAX64
        invariant observed == TotalObserved(blocks[..index]) <= MAX64
        invariant overflow == TotalOverflow(blocks[..index], capacity) <= MAX64
      {
        var source := sources[index];
        ghost var ps := Pairs(blocks[index]);
        TotalsStep(blocks, index, capacity);
        if source.window == window {
          source.Meaning();
          if distinct > MAX64 - source.distinct || observed > MAX64 - source.observed ||
            overflow > MAX64 - source.overflow {
            return false, summary;
          }
          distinct := distinct + source.distinct;
          observed := observed + source.observed;
          overflow := overflow + source.overflow;
        } else {
          assert blocks[index] == [];
          NothingObserved(capacity);
        }
        index := index + 1;
      }
      assert blocks[..index] == blocks;
      return true, Summary(window, status, |sources|, capacity, distinct, observed, overflow);
    }

    method RowCount(index: nat, id: u64) returns (n: nat)
      requires Valid()
      ensures index < |sources| && id == window ==> n == |Rows(Pairs(Blocks()[index]), capacity)|
      ensures index >= |sources| || sources[index].window != id ==> n == 0
    {
      hide WindowSource.Valid, Rows, Pairs, Configurable;
      if index >= |sources| || sources[index].window != id {
        NothingObserved(capacity);
        return 0;
      }
      sources[index].Meaning();
      return sources[index].distinct;
    }

    /** Row `k` is the k-th pair to occur, with its exact count, whatever the hash. */
    method RowAt(index: nat, id: u64, k: nat) returns (row: Row)
      requires Valid()
      ensures index < |sources| && id == window && k < |Rows(Pairs(Blocks()[index]), capacity)| ==>
        row == Rows(Pairs(Blocks()[index]), capacity)[k]
      ensures index < |sources| && id == window && k >= |Rows(Pairs(Blocks()[index]), capacity)| ==>
        row == Row(Pair(0, 0), 0)
      ensures index >= |sources| || sources[index].window != id ==> row == Row(Pair(0, 0), 0)
    {
      hide WindowSource.Valid, Rows, Pairs, Configurable;
      if index >= |sources| { return Row(Pair(0, 0), 0); }
      var source := sources[index];
      source.Meaning();
      NothingObserved(capacity);
      if source.window != id || k >= source.distinct { return Row(Pair(0, 0), 0); }
      var slot := source.slots[source.indices[k]];
      return Row(slot.pair, slot.count);
    }

    /** (distinct, observed, overflow) of one vCPU in the current window. */
    method SourceSummary(index: nat, id: u64) returns (r: (nat, nat, nat))
      requires Valid()
      ensures index < |sources| && id == window ==>
        var ps := Pairs(Blocks()[index]);
        r == (|Rows(ps, capacity)|, |ps|, Overflow(ps, capacity))
      ensures index >= |sources| || sources[index].window != id ==> r == (0, 0, 0)
    {
      hide WindowSource.Valid, Rows, Pairs, Overflow, Configurable;
      if index >= |sources| || sources[index].window != id {
        NothingObserved(capacity);
        return (0, 0, 0);
      }
      var source := sources[index];
      source.Meaning();
      return (source.distinct, source.observed, source.overflow);
    }
  }

  /** A block entered now: admitted and observed while a window records, otherwise without effect. */
  method EnterBlock(reducer: TransitionWindow, index: nat, address: u64) returns (ok: bool, recorded: bool)
    requires reducer.Valid()
    modifies
      if index < |reducer.sources|
      then {reducer.sources[index] as object, reducer.sources[index].slots, reducer.sources[index].indices} else {}
    ensures reducer.Valid() && recorded == (reducer.phase == Recording)
    ensures ok <==> recorded ==> index < |reducer.sources| && |old(reducer.Blocks())[index]| <= MAX64
    ensures var blocks := old(reducer.Blocks());
      reducer.View() == if ok && recorded
                        then old(reducer.View()).(blocks := blocks[index := blocks[index] + [address]])
                        else old(reducer.View())
  {
    var admission := reducer.Admit();
    if !admission.included { return true, false; }
    ok := reducer.Observe(index, address, admission);
    return ok, true;
  }
}
