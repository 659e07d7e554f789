/**
The stream validator as the source runs it: fields updated in place, one pass
over each payload, a growing hash table for duplicate rows and a cached flag for
complete register baselines. Every operation is proved to decide and to compute
exactly what `Validator.Accept` does.
*/
module StreamChecker {
  import opened Words
  import opened Wire
  import opened Transitions
  import opened Validator
  import opened ValidatorRuns
  import opened BoundaryRuns
  import opened KeyTable

  // ---------------------------------------------------------------- payload passes

  /** One pass over a register name: printable bytes, a terminator, zero padding. */
  method CheckName(b: seq<byte>, at: nat) returns (ok: bool)
    requires at + 64 <= |b|
    ensures ok <==> ValidName(b, at)
  {
    var length := 0;
    while length < 64 && b[at + length] != 0
      invariant length <= 64
      invariant NameLength(b, at, 0) == NameLength(b, at, length)
      invariant forall i :: at <= i < at + length ==> 33 <= b[i] <= 126
    {
      if b[at + length] < 33 || b[at + length] > 126 { return false; }
      length := length + 1;
    }
    assert NameLength(b, at, 0) == length;
    if length == 0 || length == 64 { return false; }
    ok := AllZero(b, at + length, at + 64);
  }

  method AllZero(b: seq<byte>, from: nat, to: nat) returns (ok: bool)
    requires from <= to <= |b|
    ensures ok <==> forall j :: from <= j < to ==> b[j] == 0
  {
    var i := from;
    while i < to
      invariant from <= i <= to
      invariant forall j :: from <= j < i ==> b[j] == 0
    {
      if b[i] != 0 { return false; }
      i := i + 1;
    }
    return true;
  }

  method NameTaken(regs: RegisterFile, name: seq<byte>) returns (taken: bool)
    requires forall id :: id in regs ==> id < MAX_REGISTERS
    ensures taken <==> exists other :: other in regs && regs[other].name == name
  {
    var other := 0;
    while other < MAX_REGISTERS
      invariant other <= MAX_REGISTERS
      invariant forall id :: id in regs && id < other ==> regs[id].name != name
    {
      if other in regs && regs[other].name == name { return true; }
      other := other + 1;
    }
    return false;
  }

  method DeclareRows(before: RegisterFile, b: seq<byte>, count: nat) returns (r: Option<RegisterFile>)
    requires count * SCHEMA_BYTES <= |b| && forall id :: id in before ==> id < MAX_REGISTERS
    ensures r == Declare(before, b, 0, count)
    ensures r.Some? ==> forall id :: id in r.value ==> id < MAX_REGISTERS
  {
    hide ValidName, Load;
    var regs: RegisterFile := before;
    var row := 0;
    while row < count
      invariant row <= count && forall id :: id in regs ==> id < MAX_REGISTERS
      invariant Declare(before, b, 0, count) == Declare(regs, b, row, count)
    {
      var at := row * SCHEMA_BYTES;
      var id, width := U32(b, at), U32(b, at + 4);
      if id >= MAX_REGISTERS || width == 0 || width > MAX_REGISTER_BYTES || id in regs { return None; }
      var named := CheckName(b, at + 8);
      if !named { return None; }
      var name := b[at + 8..at + 72];
      var taken := NameTaken(regs, name);
      if taken { return None; }
      regs := regs[id := Register(width, name, false)];
      row := row + 1;
    }
    return Some(regs);
  }

  /** Reading and applying samples row by row; the two-phase meaning is in `Samples` and `Apply`. */
  function SampleRows(regs: RegisterFile, b: seq<byte>, offset: nat, rows: nat): Option<RegisterFile>
    requires offset <= |b|
  {
    match Samples(b, offset, rows)
    case None => None
    case Some(samples) => Apply(regs, samples)
  }

  lemma SampleStep(regs: RegisterFile, b: seq<byte>, offset: nat, rows: nat)
    requires offset <= |b| && rows > 0
    ensures SampleAt(b, offset).None? ==> SampleRows(regs, b, offset, rows).None?
    ensures SampleAt(b, offset).Some? ==>
      var sample := SampleAt(b, offset).value;
      && offset + 16 + sample.width <= |b|
      && SampleRows(regs, b, offset, rows) ==
           if sample.id !in regs || sample.width != regs[sample.id].width || sample.baseline == regs[sample.id].sampled
           then None
           else SampleRows(regs[sample.id := regs[sample.id].(sampled := true)], b, offset + 16 + sample.width,
                           rows - 1)
  {
    hide Load;
    if SampleAt(b, offset).Some? {
      var sample := SampleAt(b, offset).value;
      var rest := Samples(b, offset + 16 + sample.width, rows - 1);
      if rest.Some? {
        assert ([sample] + rest.value)[1..] == rest.value;
      }
    }
  }

  method ApplyRows(before: RegisterFile, b: seq<byte>, rows: nat) returns (r: Option<RegisterFile>)
    requires forall id :: id in before ==> id < MAX_REGISTERS
    ensures r == SampleRows(before, b, 0, rows)
    ensures r.Some? ==> r.value.Keys == before.Keys
  {
    hide Samples, Apply, Load;
    var regs: RegisterFile := before;
    var offset: nat, row: nat := 0, 0;
    while row < rows
      invariant row <= rows && offset <= |b| && regs.Keys == before.Keys
      invariant SampleRows(before, b, 0, rows) == SampleRows(regs, b, offset, rows - row)
    {
      SampleStep(regs, b, offset, rows - row);
      if |b| - offset < 16 { return None; }
      var id, width, flags := U32(b, offset + 8), U16(b, offset + 12), U16(b, offset + 14);
      if width > |b| - offset - 16 || flags / 256 > 1 || flags % 256 < 1 || flags % 256 > 3 { return None; }
      if id !in regs || width != regs[id].width { return None; }
      var baseline := flags / 256 == 1;
      if baseline == regs[id].sampled { return None; }
      regs := regs[id := regs[id].(sampled := true)];
      offset := offset + 16 + width;
      row := row + 1;
    }
    SamplesEnd(regs, b, offset);
    if offset != |b| { return None; }
    return Some(regs);
  }

  lemma SamplesEnd(regs: RegisterFile, b: seq<byte>, offset: nat)
    requires offset <= |b|
    ensures SampleRows(regs, b, offset, 0) == if offset == |b| then Some(regs) else None
  {
  }

  method CheckAccesses(b: seq<byte>, count: nat, f: Features, source: Source) returns (ok: bool)
    requires count * MemoryStride(f) <= |b|
    ensures ok <==> forall i :: 0 <= i < count ==> ValidAccess(b, i * MemoryStride(f), f, source)
  {
    hide ValidAccess;
    var row := 0;
    while row < count
      invariant row <= count
      invariant forall i :: 0 <= i < row ==> ValidAccess(b, i * MemoryStride(f), f, source)
    {
      if !ValidAccess(b, row * MemoryStride(f), f, source) { return false; }
      row := row + 1;
    }
    return true;
  }

  /** One pass over retained contexts, carrying the last accepted block position. */
  method CheckReducedRows(b: seq<byte>, count: nat, hasReduced: bool, lastBlock: nat) returns (ok: bool, last: nat)
    requires count > 0 && count * REDUCED_CONTEXT_BYTES <= |b|
    ensures ok <==>
      && (forall i :: 0 <= i < count ==> ValidReducedRow(b, i))
      && (forall i :: 0 < i < count ==> ReducedBlock(b, i - 1) < ReducedBlock(b, i))
      && !(hasReduced && ReducedBlock(b, 0) <= lastBlock)
    ensures ok ==> last == ReducedBlock(b, count - 1)
  {
    hide ValidReducedRow, ReducedBlock;
    var has := hasReduced;
    last := lastBlock;
    var row := 0;
    while row < count
      invariant row <= count
      invariant has == (hasReduced || row > 0) && last == if row == 0 then lastBlock else ReducedBlock(b, row - 1)
      invariant forall i :: 0 <= i < row ==> ValidReducedRow(b, i)
      invariant forall i :: 0 < i < row ==> ReducedBlock(b, i - 1) < ReducedBlock(b, i)
      invariant row > 0 ==> !(hasReduced && ReducedBlock(b, 0) <= lastBlock)
    {
      var block := ReducedBlock(b, row);
      if (has && block <= last) || !ValidReducedRow(b, row) { return false, last; }
      last := block;
      has := true;
      row := row + 1;
    }
    return true, last;
  }

  // ---------------------------------------------------------------- row-by-row acceptance

  /** Checking rows one at a time against the growing set is checking them all at once. */
  lemma NewRowsStep(known: set<Key>, source: nat, rows: seq<Row>, r: nat)
    requires r < |rows|
    ensures NewRows(known, source, rows[..r + 1]) <==>
      && NewRows(known, source, rows[..r])
      && Key(source, rows[r].pair) !in known + KeysOf(source, rows[..r])
      && rows[r].count > 0 && |known| + r < MAX_TRANSITION_SLOTS
    ensures KeysOf(source, rows[..r + 1]) == KeysOf(source, rows[..r]) + {Key(source, rows[r].pair)}
  {
    KeysStep(source, rows, r);
    FreshKey(source, rows[..r], rows[r].pair);
    hide KeysOf, NewRows;
    var a, c := rows[..r], rows[..r + 1];
    assert c == a + [rows[r]];
    if NewRows(known, source, c) { NewRowsFront(known, source, a, rows[r]); }
    if && NewRows(known, source, a) && Key(source, rows[r].pair) !in known + KeysOf(source, a)
       && rows[r].count > 0 && |known| + r < MAX_TRANSITION_SLOTS {
      NewRowsNext(known, source, a, rows[r]);
    }
  }

  lemma NewRowsNext(known: set<Key>, source: nat, a: seq<Row>, row: Row)
    requires NewRows(known, source, a) && row.count > 0 && Key(source, row.pair) !in known
    requires |known| + |a| < MAX_TRANSITION_SLOTS && forall i :: 0 <= i < |a| ==> a[i].pair != row.pair
    ensures NewRows(known, source, a + [row])
  {
    var c := a + [row];
    forall i, j | 0 <= i < j < |c| ensures c[i].pair != c[j].pair {
      if j < |a| { assert a[i].pair != a[j].pair; }
    }
    forall i | 0 <= i < |c| ensures Key(source, c[i].pair) !in known && c[i].count > 0 {
      if i < |a| { assert Key(source, a[i].pair) !in known; }
    }
  }

  lemma NewRowsFront(known: set<Key>, source: nat, a: seq<Row>, row: Row)
    requires NewRows(known, source, a + [row])
    ensures NewRows(known, source, a) && row.count > 0 && Key(source, row.pair) !in known
    ensures |known| + |a| < MAX_TRANSITION_SLOTS && forall i :: 0 <= i < |a| ==> a[i].pair != row.pair
  {
    var c := a + [row];
    assert c[|a|] == row;
    forall i, j | 0 <= i < j < |a| ensures a[i].pair != a[j].pair { assert c[i].pair != c[j].pair; }
    forall i | 0 <= i < |a| ensures Key(source, a[i].pair) !in known && a[i].count > 0 && a[i].pair != row.pair {
      assert c[i] == a[i];
    }
  }

  lemma {:induction false} NewRowsPrefix(known: set<Key>, source: nat, rows: seq<Row>, r: nat)
    requires r <= |rows| && !NewRows(known, source, rows[..r])
    ensures !NewRows(known, source, rows)
    decreases |rows| - r
  {
    hide NewRows, KeysOf;
    if r == |rows| {
      assert rows[..r] == rows;
    } else {
      NewRowsStep(known, source, rows, r);
      NewRowsPrefix(known, source, rows, r + 1);
    }
  }

  lemma {:induction false} SumPrefix(rows: seq<Row>, r: nat)
    requires r <= |rows|
    ensures SumCounts(rows[..r]) <= SumCounts(rows)
    ensures r < |rows| ==> SumCounts(rows[..r + 1]) == SumCounts(rows[..r]) + rows[r].count
  {
    if r == |rows| {
      assert rows[..r] == rows;
    } else {
      SumPrefix(rows[..|rows| - 1], r);
      assert rows[..|rows| - 1][..r] == rows[..r];
      assert rows[..r + 1][..r] == rows[..r];
    }
  }

  /** The row loop: remembers keys and adds counts until a row is rejected or the sum passes `room`. */
  method RememberRows(slots: seq<KeySlot>, hash: Key -> nat, window: nat, live: nat, room: nat, index: nat,
                      b: seq<byte>, count: nat, ghost rows: seq<Row>)
    returns (ok: bool, keys: seq<KeySlot>, distinct: nat, sum: nat)
    requires Holds(slots, hash, window, live) && live <= MAX_TRANSITION_SLOTS
    requires count * TRANSITION_BYTES <= |b| && rows == TransitionRows(b, count)
    ensures ok <==> NewRows(Live(slots, window), index, rows) && SumCounts(rows) <= room
    ensures ok ==>
      && Holds(keys, hash, window, distinct) && distinct <= MAX_TRANSITION_SLOTS && sum == SumCounts(rows)
      && Live(keys, window) == Live(slots, window) + KeysOf(index, rows)
  {
    hide TransitionRows, TransitionRow, NewRows, KeysOf, SumCounts, Live, Holds;
    ghost var known := Live(slots, window);
    NoRows(known, index, rows, live, slots, hash, window);
    keys, distinct, sum := slots, live, 0;
    var row := 0;
    while row < count
      invariant row <= count && Holds(keys, hash, window, distinct) && distinct == |known| + row <= MAX_TRANSITION_SLOTS
      invariant Live(keys, window) == known + KeysOf(index, rows[..row])
      invariant NewRows(known, index, rows[..row])
      invariant sum == SumCounts(rows[..row]) <= room
    {
      assert rows[row] == TransitionRow(b, row) by { RowOf(b, count, row); }
      NewRowsStep(known, index, rows, row);
      SumPrefix(rows, row);
      SumPrefix(rows, row + 1);
      var item := TransitionRow(b, row);
      var remembered: bool;
      remembered, keys := Remember(keys, hash, window, distinct, Key(index, item.pair));
      if !remembered || item.count == 0 {
        NewRowsPrefix(known, index, rows, row + 1);
        return false, keys, distinct, sum;
      }
      if sum + item.count > room { return false, keys, distinct, sum; }
      sum := sum + item.count;
      distinct := distinct + 1;
      row := row + 1;
    }
    assert rows[..row] == rows;
    return true, keys, distinct, sum;
  }

  lemma RowOf(b: seq<byte>, count: nat, row: nat)
    requires count * TRANSITION_BYTES <= |b| && row < count
    ensures TransitionRows(b, count)[row] == TransitionRow(b, row)
  {
  }

  lemma NoRows(known: set<Key>, source: nat, rows: seq<Row>, distinct: nat, keys: seq<KeySlot>, hash: Key -> nat,
               window: nat)
    requires Holds(keys, hash, window, distinct) && known == Live(keys, window)
    ensures distinct <= MAX_TRANSITION_SLOTS ==> NewRows(known, source, rows[..0])
    ensures distinct == |known|
    ensures KeysOf(source, rows[..0]) == {} && SumCounts(rows[..0]) == 0
  {
  }

  // ---------------------------------------------------------------- scans

  method ScanBaseline(registers: Option<RegisterFile>) returns (complete: bool)
    requires registers.Some? ==> forall id :: id in registers.value ==> id < MAX_REGISTERS
    ensures complete <==> BaselineComplete(registers)
  {
    if registers.None? { return false; }
    var regs := registers.value;
    var id := 0;
    while id < MAX_REGISTERS
      invariant id <= MAX_REGISTERS
      invariant forall other :: other in regs && other < id ==> regs[other].sampled
    {
      if id in regs && !regs[id].sampled { return false; }
      id := id + 1;
    }
    return true;
  }

  method AnySampled(regs: RegisterFile) returns (any: bool)
    requires forall id :: id in regs ==> id < MAX_REGISTERS
    ensures any <==> !Unsampled(regs)
  {
    any := false;
    var id := 0;
    while id < MAX_REGISTERS
      invariant id <= MAX_REGISTERS
      invariant any <==> exists other :: other in regs && other < id && regs[other].sampled
    {
      any := any || (id in regs && regs[id].sampled);
      id := id + 1;
    }
  }

  /** Registers are declared below the fixed register bound. */
  ghost predicate Bounded(sources: seq<Source>) {
    forall i :: 0 <= i < |sources| && sources[i].registers.Some? ==>
      forall id :: id in sources[i].registers.value ==> id < MAX_REGISTERS
  }

  method ScanBoundary(s: State) returns (ready: bool)
    requires Bounded(s.sources)
    ensures ready <==> BoundaryReady(s)
  {
    hide BaselineComplete, Unsampled;
    if !s.features.registers { return true; }
    var index := 0;
    while index < MAX_SOURCES
      invariant index <= MAX_SOURCES
      invariant forall i :: 0 <= i < index && s.sources[i].data ==>
        && s.sources[i].registers.Some?
        && (|| (s.features.contextFilter && Unsampled(s.sources[i].registers.value))
            || BaselineComplete(s.sources[i].registers))
    {
      var source := s.sources[index];
      if source.data {
        if source.registers.None? { return false; }
        var any := AnySampled(source.registers.value);
        if !s.features.contextFilter || any {
          var complete := ScanBaseline(source.registers);
          if !complete { return false; }
        }
      }
      index := index + 1;
    }
    return true;
  }

  method ScanEnded(s: State) returns (all: bool)
    ensures all <==> AllSeenEnded(s)
  {
    var index := 0;
    while index < MAX_SOURCES
      invariant index <= MAX_SOURCES
      invariant forall i :: 0 <= i < index ==> (s.sources[i].seen ==> s.sources[i].ended)
    {
      if s.sources[index].seen && !s.sources[index].ended { return false; }
      index := index + 1;
    }
    return true;
  }

  // ---------------------------------------------------------------- the validator object

  /** A cached flag is right: the source has data, so its schema is closed, and every register was sampled. */
  ghost predicate Cached(flags: seq<bool>, sources: seq<Source>) {
    |flags| == |sources| &&
    forall i :: 0 <= i < |flags| && flags[i] ==> sources[i].data && BaselineComplete(sources[i].registers)
  }

  function WithKeys(s: State, keys: set<Key>): State {
    s.(windows := s.windows.(keys := keys))
  }

  function Lift(r: Option<State>, keys: set<Key>): Option<State> {
    match r
    case None => None
    case Some(t) => Some(WithKeys(t, keys))
  }

  lemma SameHeaderFields(s: State, keys: set<Key>)
    ensures var w := WithKeys(s, keys);
      w.started == s.started && w.finished == s.finished && w.version == s.version && w.features == s.features &&
      w.layoutSeen == s.layoutSeen
    ensures Lift(None, keys) == None
  {
  }

  /** What the object's fields must satisfy besides being consistent with their meaning. */
  ghost predicate Sound(s: State, slots: seq<KeySlot>, distinct: nat, cache: seq<bool>, hash: Key -> nat) {
    && s.windows.keys == {} && s.windows.observed <= MAX64 && distinct <= MAX_TRANSITION_SLOTS
    && Holds(slots, hash, s.windows.next, distinct)
    && Bounded(s.sources) && Cached(cache, s.sources)
  }

  /** Rewriting one source keeps both facts if its register file stays and its data flag does not drop. */
  lemma KeepSource(cache: seq<bool>, sources: seq<Source>, index: nat, source: Source)
    requires index < |sources| && Bounded(sources) && Cached(cache, sources)
    requires source.registers == sources[index].registers && (sources[index].data ==> source.data)
    ensures Bounded(sources[index := source]) && Cached(cache, sources[index := source])
  {
  }

  /** Transition rows against the hash table. */
  method CheckTransitions(s: State, slots: seq<KeySlot>, live: nat, hash: Key -> nat, ghost cache: seq<bool>,
                          h: Header, b: seq<byte>)
    returns (r: Option<State>, keys: seq<KeySlot>, distinct: nat)
    requires Sound(s, slots, live, cache, hash) && h.source < MAX_SOURCES && h.count * TRANSITION_BYTES <= |b|
    ensures var spec := AcceptTransitions(WithKeys(s, Live(slots, s.windows.next)), h, TransitionRows(b, h.count));
      && (r.None? <==> spec.None?)
      && (r.Some? ==> spec == Some(WithKeys(r.value, Live(keys, r.value.windows.next))))
    ensures r.Some? ==> Sound(r.value, keys, distinct, cache, hash)
  {
    hide TransitionRows, NewRows, KeysOf, SumCounts, Live, Holds, Cached, Bounded, AcceptTransitions;
    ghost var rows := TransitionRows(b, h.count);
    ghost var known := Live(slots, s.windows.next);
    TransitionsDecision(s, known, h, rows);
    var w, source := s.windows, s.sources[h.source];
    var action, reduced := s.features.transitionWindows, s.features.observationReduction;
    if (!action && !reduced) || h.sequence != w.next || source.ended || (action && !w.expected) ||
      (reduced && source.summarized) { return None, slots, live; }
    var ok: bool, sum: nat;
    ok, keys, distinct, sum := RememberRows(slots, hash, w.next, live, MAX64 - w.observed, h.source, b, h.count, rows);
    if !ok || (reduced && source.reducedCounts + sum > MAX64) || source.windowRows + h.count > MAX_TRANSITION_SLOTS {
      return None, keys, distinct;
    }
    var updated := source.(windowRows := source.windowRows + h.count,
                           reducedCounts := if reduced then source.reducedCounts + sum else source.reducedCounts);
    KeepSource(cache, s.sources, h.source, updated);
    r := Some(SetSource(s, h.source, updated).(
                windows := w.(observed := w.observed + sum, rows := true,
                              sourcesSeen := if w.sourcesSeen <= h.source then h.source + 1 else w.sourcesSeen)));
    TransitionsResult(s, known, h, rows);
  }

  lemma TransitionsDecision(s: State, known: set<Key>, h: Header, rows: seq<Row>)
    requires h.source < MAX_SOURCES && |rows| == h.count
    ensures AcceptTransitions(WithKeys(s, known), h, rows).Some? <==>
      var source, action, reduced := s.sources[h.source], s.features.transitionWindows, s.features.observationReduction;
      && (action || reduced) && h.sequence == s.windows.next && !source.ended && (action ==> s.windows.expected)
      && !(reduced && source.summarized)
      && NewRows(known, h.source, rows) && s.windows.observed + SumCounts(rows) <= MAX64
      && (reduced ==> source.reducedCounts + SumCounts(rows) <= MAX64)
      && source.windowRows + h.count <= MAX_TRANSITION_SLOTS
  {
    hide NewRows, SumCounts, KeysOf;
  }

  lemma TransitionsResult(s: State, known: set<Key>, h: Header, rows: seq<Row>)
    requires h.source < MAX_SOURCES && |rows| == h.count && AcceptTransitions(WithKeys(s, known), h, rows).Some?
    ensures var w, source, reduced := s.windows, s.sources[h.source], s.features.observationReduction;
      var updated := source.(windowRows := source.windowRows + h.count,
        reducedCounts := if reduced then source.reducedCounts + SumCounts(rows) else source.reducedCounts);
      AcceptTransitions(WithKeys(s, known), h, rows) ==
        Some(WithKeys(SetSource(s, h.source, updated).(
          windows := w.(observed := w.observed + SumCounts(rows), rows := true,
                        sourcesSeen := if w.sourcesSeen <= h.source then h.source + 1 else w.sourcesSeen)),
          known + KeysOf(h.source, rows)))
  {
    hide NewRows, SumCounts, KeysOf;
  }

  method RowsFit(sources: seq<Source>, capacity: nat) returns (fit: bool)
    requires |sources| == MAX_SOURCES
    ensures fit <==> forall i :: 0 <= i < |sources| ==> sources[i].windowRows <= capacity
  {
    fit := true;
    var index := 0;
    while index < MAX_SOURCES
      invariant index <= MAX_SOURCES
      invariant fit <==> forall i :: 0 <= i < index ==> sources[i].windowRows <= capacity
    {
      if sources[index].windowRows > capacity { fit := false; }
      index := index + 1;
    }
  }

  /** Closing a window: the table is not touched, the next window simply cannot see its keys. */
  method CheckWindow(s: State, slots: seq<KeySlot>, live: nat, hash: Key -> nat, ghost cache: seq<bool>,
                     h: Header, b: seq<byte>)
    returns (r: Option<State>)
    requires Sound(s, slots, live, cache, hash) && WINDOW_BYTES <= |b|
    ensures var spec := AcceptWindow(WithKeys(s, Live(slots, s.windows.next)), h, b);
      && (r.None? <==> spec.None?)
      && (r.Some? ==> spec == Some(WithKeys(r.value, Live(slots, r.value.windows.next))))
    ensures r.Some? ==> Sound(r.value, slots, 0, cache, hash)
  {
    LiveCount(slots, hash, s.windows.next, live);
    NextWindow(slots, hash, s.windows.next, live);
    ClearKeeps(cache, s.sources);
    WindowDecision(s, Live(slots, s.windows.next), h, b);
    hide Live, Holds, Cached, Bounded, PowerOfTwo, AcceptWindow, WindowTotalsAt;
    var w, t := s.windows, WindowTotalsAt(b);
    if !s.features.transitionWindows || h.sequence != w.next || !w.expected { return None; }
    var fit := RowsFit(s.sources, t.capacity);
    if t.status < 1 || t.status > 3 || t.sources == 0 || t.sources > MAX_SOURCES || t.capacity < 2 ||
      !PowerOfTwo(t.capacity) || t.reserved != 0 || t.sources * t.capacity > MAX_TRANSITION_SLOTS ||
      t.distinct > t.sources * t.capacity || !fit || w.sourcesSeen > t.sources ||
      (w.sources != 0 && (w.sources != t.sources || w.capacity != t.capacity)) ||
      t.distinct != live || t.overflow > t.observed || w.observed + t.overflow != t.observed || w.next >= MAX64 {
      return None;
    }
    r := Some(NextWindowState(s, t));
  }

  function NextWindowState(s: State, t: WindowTotals): State {
    s.(windows := Windows(s.windows.next + 1, {}, 0, t.sources, t.capacity, 0, false, false),
       sources := ClearRows(s.sources))
  }

  lemma WindowDecision(s: State, known: set<Key>, h: Header, b: seq<byte>)
    requires WINDOW_BYTES <= |b|
    ensures var w, t := s.windows, WindowTotalsAt(b);
      AcceptWindow(WithKeys(s, known), h, b) ==
        if s.features.transitionWindows && h.sequence == w.next && w.expected && w.next < MAX64 &&
           1 <= t.status <= 3 && 0 < t.sources <= MAX_SOURCES && 2 <= t.capacity && PowerOfTwo(t.capacity) &&
           t.reserved == 0 && t.sources * t.capacity <= MAX_TRANSITION_SLOTS &&
           (forall i :: 0 <= i < |s.sources| ==> s.sources[i].windowRows <= t.capacity) && w.sourcesSeen <= t.sources &&
           (w.sources != 0 ==> w.sources == t.sources && w.capacity == t.capacity) &&
           t.distinct == |known| <= t.sources * t.capacity && w.observed + t.overflow == t.observed
        then Some(NextWindowState(s, t)) else None
  {
    hide WindowTotalsAt, PowerOfTwo, ClearRows;
  }

  lemma LiveCount(slots: seq<KeySlot>, hash: Key -> nat, window: nat, distinct: nat)
    requires Holds(slots, hash, window, distinct)
    ensures |Live(slots, window)| == distinct
  {
  }

  lemma ClearKeeps(cache: seq<bool>, sources: seq<Source>)
    requires Bounded(sources) && Cached(cache, sources)
    ensures Bounded(ClearRows(sources)) && Cached(cache, ClearRows(sources))
  {
  }

  method CheckKernel(s: State, h: Header) returns (r: Option<State>)
    requires Bounded(s.sources)
    ensures r == AcceptKernel(s, h)
  {
    hide BoundaryReady;
    if !s.features.kernel { return None; }
    if h.kind != KernelRequest { return Some(s); }
    var ready := ScanBoundary(s);
    if !ready || (s.features.transitionWindows && s.windows.expected) { return None; }
    return Some(if s.features.transitionWindows then s.(windows := s.windows.(expected := true)) else s);
  }

  method CheckReducedContext(s: State, h: Header, b: seq<byte>) returns (r: Option<State>)
    requires h.source < MAX_SOURCES && 0 < h.count && h.count * REDUCED_CONTEXT_BYTES <= |b|
    ensures r == AcceptReducedContext(s, h, b)
  {
    hide ValidReducedRow, ReducedBlock;
    var source := s.sources[h.source];
    if !s.features.observationReduction || source.ended || source.summarized || h.sequence != source.next ||
      h.sequence + h.count > MAX64 { return None; }
    var ok, last := CheckReducedRows(b, h.count, source.hasReduced, source.lastBlock);
    if !ok || source.reducedContexts + h.count > MAX_TRANSITION_SLOTS { return None; }
    return Some(SetSource(s, h.source, source.(lastBlock := last, hasReduced := true,
                  reducedContexts := source.reducedContexts + h.count, next := source.next + h.count,
                  seen := true, data := true)).(sourceDataSeen := true));
  }

  method CheckFilter(s: State, b: seq<byte>) returns (r: Option<State>)
    requires FILTER_BYTES <= |b|
    ensures r == AcceptFilter(s, b)
  {
    hide FilterTotalsAt, ClosesFilter, AllSeenEnded;
    if !s.features.contextFilter || s.filterSeen { return None; }
    var ended := ScanEnded(s);
    if !ended { return None; }
    var t := FilterTotalsAt(b);
    if t.source >= MAX_SOURCES || !s.sources[t.source].seen || !s.sources[t.source].ended ||
      !ClosesFilter(t, s.filterRows) { return None; }
    return Some(s.(filterSeen := true));
  }

  method CheckComplete(s: State) returns (r: Option<State>)
    ensures r == AcceptComplete(s)
  {
    hide AllSeenEnded;
    if s.features.transitionWindows && (s.windows.rows || s.windows.expected) { return None; }
    var index := 0;
    while index < MAX_SOURCES && index < s.windows.sources
      invariant index <= MAX_SOURCES
      invariant forall i :: 0 <= i < index && i < s.windows.sources ==> s.sources[i].ended
    {
      if !s.sources[index].ended { return None; }
      index := index + 1;
    }
    var ended := ScanEnded(s);
    if !ended { return None; }
    if s.features.observationReduction {
      if s.reducedSources == 0 { return None; }
      index := 0;
      while index < MAX_SOURCES && index < s.reducedSources
        invariant index <= MAX_SOURCES
        invariant forall i :: 0 <= i < index && i < s.reducedSources ==> s.sources[i].summarized && s.sources[i].ended
      {
        if !s.sources[index].summarized || !s.sources[index].ended { return None; }
        index := index + 1;
      }
    }
    if s.features.contextFilter && !s.filterSeen { return None; }
    return Some(s.(finished := true));
  }

  method CheckSchema(s: State, h: Header, b: seq<byte>) returns (r: Option<State>)
    requires Bounded(s.sources) && h.source < MAX_SOURCES && h.count * SCHEMA_BYTES <= |b|
    ensures r == AcceptSchema(s, h, b)
    ensures r.Some? ==> Bounded(r.value.sources)
  {
    hide Declare;
    var source := s.sources[h.source];
    if !s.features.registers || source.data { return None; }
    var declared := DeclareRows(if source.registers.Some? then source.registers.value else map[], b, h.count);
    if declared.None? { return None; }
    return Some(SetSource(s, h.source, source.(registers := Some(declared.value), seen := true)));
  }

  /** The rows of one frame, read in a single pass. */
  method CheckRows(s: State, h: Header, b: seq<byte>) returns (r: Option<Source>)
    requires Bounded(s.sources) && h.source < MAX_SOURCES
    requires h.kind == AddressContext ==> CONTEXT_BYTES <= |b|
    requires h.kind == Memory ==> |b| == h.detail
    ensures r == AcceptRows(s, h, b)
  {
    hide Samples, Apply, ValidAccess, ValidContext, Load;
    var f, source := s.features, s.sources[h.source];
    if h.kind == Registers {
      if (f.addressContext && !source.hasContext) || !f.registers || source.registers.None? { return None; }
      var applied := ApplyRows(source.registers.value, b, h.count);
      return if applied.Some? then Some(source.(registers := applied)) else None;
    }
    if h.kind == Memory {
      if !f.memory || h.detail != h.count * MemoryStride(f) { return None; }
      var valid := CheckAccesses(b, h.count, f, source);
      return if valid then Some(source) else None;
    }
    return AcceptRows(s, h, b);
  }

  /** The cached baseline flag decides as a fresh scan would, and stays right. */
  method CheckSequenced(s: State, cache: seq<bool>, h: Header, b: seq<byte>) returns (r: Option<State>,
                        after: seq<bool>)
    requires Bounded(s.sources) && Cached(cache, s.sources)
    requires LegalHeader(h) && |b| == PayloadSize(h) && Sequenced(h.kind)
    ensures r == AcceptSequenced(s, h, b)
    ensures r.Some? ==> Bounded(r.value.sources) && Cached(after, r.value.sources)
  {
    LegalSizes(h);
    hide LegalHeader, PayloadSize, AcceptRows, Advance, BaselineComplete, Bounded, Cached, NeedsBaseline;
    after := cache;
    var source := s.sources[h.source];
    if h.sequence != source.next || h.sequence + h.count > MAX64 { return None, after; }
    CachedAt(cache, s.sources, h.source);
    if NeedsBaseline(s, h) && !cache[h.source] {
      var complete := ScanBaseline(source.registers);
      if !complete { return None, after; }
      after := cache[h.source := true];
    }
    var rows := CheckRows(s, h, b);
    if rows.None? { return None, after; }
    r := Advance(s, h, rows.value);
    if r.Some? {
      Advanced(s, h, rows.value, r.value);
      RowsKeepCache(s, cache, after, h, b, rows.value, r.value.sources[h.source]);
    }
  }

  lemma Advanced(s: State, h: Header, after: Source, t: State)
    requires h.source < MAX_SOURCES && Advance(s, h, after) == Some(t)
    ensures t.sources == s.sources[h.source := t.sources[h.source]]
    ensures t.sources[h.source].data && t.sources[h.source].registers == after.registers
  {
  }

  method CheckSource(s: State, cache: seq<bool>, h: Header, b: seq<byte>) returns (r: Option<State>, after: seq<bool>)
    requires Bounded(s.sources) && Cached(cache, s.sources)
    requires LegalHeader(h) && |b| == PayloadSize(h) && (h.kind == RegisterSchema || Sequenced(h.kind))
    ensures r == AcceptSource(s, h, b)
    ensures r.Some? ==> Bounded(r.value.sources) && Cached(after, r.value.sources)
  {
    LegalSizes(h);
    hide LegalHeader, PayloadSize, AcceptSchema, AcceptSequenced, Bounded, Cached;
    var f, source := s.features, s.sources[h.source];
    if (f.stdio && h.source != 0) || (h.kind == InputRequest && !f.stdio) ||
      (f.observationReduction && (h.kind == Blocks || h.kind == AddressContext)) || source.ended ||
      (f.observationReduction && h.kind == SourceEnd && !source.summarized) { return None, cache; }
    if h.kind == RegisterSchema {
      r := CheckSchema(s, h, b);
      if r.Some? { SchemaKeepsCache(s, cache, h, b, r.value); }
      return r, cache;
    }
    r, after := CheckSequenced(s, cache, h, b);
  }

  lemma LegalSizes(h: Header)
    requires LegalHeader(h)
    ensures h.source < MAX_SOURCES
    ensures h.kind == RegisterSchema ==> h.count * SCHEMA_BYTES == PayloadSize(h)
    ensures h.kind == AddressContext ==> PayloadSize(h) == CONTEXT_BYTES
    ensures h.kind == BlockTransitions ==> h.count * TRANSITION_BYTES == PayloadSize(h)
    ensures h.kind == ReducedContext ==> 0 < h.count && h.count * REDUCED_CONTEXT_BYTES == PayloadSize(h)
    ensures h.kind == ObservationSummary ==> PayloadSize(h) == SUMMARY_BYTES
    ensures h.kind == TransitionWindow ==> PayloadSize(h) == WINDOW_BYTES
    ensures h.kind == ContextFilter ==> PayloadSize(h) == FILTER_BYTES
    ensures h.kind == ExecutableLayout ==> PayloadSize(h) == LAYOUT_BYTES
    ensures h.kind == Memory || h.kind == Mixed ==> PayloadSize(h) == h.detail
  {
  }

  lemma CachedAt(cache: seq<bool>, sources: seq<Source>, index: nat)
    requires Bounded(sources) && Cached(cache, sources) && index < |sources|
    ensures |cache| == |sources| && (cache[index] ==> BaselineComplete(sources[index].registers))
    ensures sources[index].registers.Some? ==> forall id :: id in sources[index].registers.value ==> id < MAX_REGISTERS
  {
  }

  lemma SchemaKeepsCache(s: State, cache: seq<bool>, h: Header, b: seq<byte>, t: State)
    requires Cached(cache, s.sources) && h.source < MAX_SOURCES && h.count * SCHEMA_BYTES <= |b|
    requires AcceptSchema(s, h, b) == Some(t)
    ensures Cached(cache, t.sources)
  {
    hide Declare, BaselineComplete;
  }

  lemma {:induction false} ApplyKeeps(regs: RegisterFile, samples: seq<Sample>, after: RegisterFile)
    requires Apply(regs, samples) == Some(after)
    ensures after.Keys == regs.Keys && forall id :: id in regs && regs[id].sampled ==> after[id].sampled
    decreases |samples|
  {
    if samples == [] {
    } else {
      var first := samples[0];
      ApplyKeeps(regs[first.id := regs[first.id].(sampled := true)], samples[1..], after);
    }
  }

  lemma RowsKeepCache(s: State, cache: seq<bool>, after: seq<bool>, h: Header, b: seq<byte>, rows: Source,
                      updated: Source)
    requires Bounded(s.sources) && Cached(cache, s.sources) && h.source < MAX_SOURCES
    requires h.kind == AddressContext ==> CONTEXT_BYTES <= |b|
    requires h.kind == Memory ==> |b| == h.detail
    requires AcceptRows(s, h, b) == Some(rows)
    requires updated.data && updated.registers == rows.registers
    requires after == cache || (after == cache[h.source := true] && BaselineComplete(s.sources[h.source].registers))
    ensures Bounded(s.sources[h.source := updated]) && Cached(after, s.sources[h.source := updated])
  {
    hide Samples, Apply, ValidAccess, ValidContext, Load;
    var before := s.sources[h.source].registers;
    if h.kind == Registers {
      ApplyKeeps(before.value, Samples(b, 0, h.count).value, rows.registers.value);
    }
    assert BaselineComplete(before) ==> BaselineComplete(rows.registers);
  }

  lemma KernelIgnoresKeys(s: State, keys: set<Key>, h: Header)
    ensures AcceptKernel(WithKeys(s, keys), h) == Lift(AcceptKernel(s, h), keys)
    ensures AcceptKernel(s, h).Some? ==> AcceptKernel(s, h).value.sources == s.sources
  {
    hide BaselineComplete, Unsampled;
    assert BoundaryReady(WithKeys(s, keys)) == BoundaryReady(s);
  }

  lemma ReductionIgnoresKeys(s: State, keys: set<Key>, h: Header, b: seq<byte>)
    requires h.source < MAX_SOURCES
    ensures 0 < h.count && h.count * REDUCED_CONTEXT_BYTES <= |b| ==>
      AcceptReducedContext(WithKeys(s, keys), h, b) == Lift(AcceptReducedContext(s, h, b), keys)
    ensures SUMMARY_BYTES <= |b| ==>
      AcceptSummary(WithKeys(s, keys), h, b) == Lift(AcceptSummary(s, h, b), keys)
  {
    hide ValidReducedRow, ReducedBlock, ClosesSource, ReductionAt;
  }

  lemma GlobalIgnoresKeys(s: State, keys: set<Key>, b: seq<byte>)
    ensures FILTER_BYTES <= |b| ==>
      AcceptFilter(WithKeys(s, keys), b) == Lift(AcceptFilter(s, b), keys)
    ensures LAYOUT_BYTES <= |b| ==>
      AcceptLayout(WithKeys(s, keys), b) == Lift(AcceptLayout(s, b), keys)
    ensures AcceptComplete(WithKeys(s, keys)) == Lift(AcceptComplete(s), keys)
  {
    hide FilterTotalsAt, ClosesFilter, Load;
    assert AllSeenEnded(WithKeys(s, keys)) == AllSeenEnded(s);
  }

  lemma RowsIgnoreKeys(s: State, keys: set<Key>, h: Header, b: seq<byte>)
    requires h.source < MAX_SOURCES
    requires h.kind == AddressContext ==> CONTEXT_BYTES <= |b|
    requires h.kind == Memory ==> |b| == h.detail
    ensures AcceptRows(WithKeys(s, keys), h, b) == AcceptRows(s, h, b)
  {
    hide Samples, Apply, ValidAccess, ValidContext, Load;
  }

  lemma SequencedIgnoresKeys(s: State, keys: set<Key>, h: Header, b: seq<byte>)
    requires LegalHeader(h) && |b| == PayloadSize(h) && Sequenced(h.kind)
    ensures AcceptSequenced(WithKeys(s, keys), h, b) == Lift(AcceptSequenced(s, h, b), keys)
  {
    LegalSizes(h);
    RowsIgnoreKeys(s, keys, h, b);
    var rows := AcceptRows(s, h, b);
    if rows.Some? { AdvanceIgnoresKeys(s, keys, h, rows.value); }
    assert NeedsBaseline(WithKeys(s, keys), h) == NeedsBaseline(s, h);
    hide LegalHeader, PayloadSize, AcceptRows, BaselineComplete, Advance, NeedsBaseline;
  }

  lemma AdvanceIgnoresKeys(s: State, keys: set<Key>, h: Header, after: Source)
    requires h.source < MAX_SOURCES
    ensures Advance(WithKeys(s, keys), h, after) == Lift(Advance(s, h, after), keys)
  {
  }

  lemma SourceIgnoresKeys(s: State, keys: set<Key>, h: Header, b: seq<byte>)
    requires LegalHeader(h) && |b| == PayloadSize(h) && (h.kind == RegisterSchema || Sequenced(h.kind))
    ensures AcceptSource(WithKeys(s, keys), h, b) == Lift(AcceptSource(s, h, b), keys)
  {
    LegalSizes(h);
    if Sequenced(h.kind) { SequencedIgnoresKeys(s, keys, h, b); }
    hide LegalHeader, PayloadSize, Declare, AcceptSequenced;
  }

  /** The outcome of checking one frame agrees with the specification. */
  ghost predicate Agrees(spec: Option<State>, r: Option<State>, keys: seq<KeySlot>, distinct: nat, cache: seq<bool>,
                         hash: Key -> nat) {
    && (r.None? <==> spec.None?)
    && (r.Some? ==>
          && spec == Some(WithKeys(r.value, Live(keys, r.value.windows.next)))
          && Sound(r.value, keys, distinct, cache, hash))
  }

  /** Dispatch by kind for frames that touch no window row; the detector is left alone. */
  method CheckPlain(s: State, cache: seq<bool>, h: Header, b: seq<byte>) returns (r: Option<State>, after: seq<bool>)
    requires Bounded(s.sources) && Cached(cache, s.sources)
    requires |b| == PayloadSize(h) && LegalHeader(h) && s.started
    requires h.kind != Mixed && h.kind != BlockTransitions && h.kind != TransitionWindow
    requires !s.finished && h.version == s.version
    ensures r == AcceptSingle(s, h, b)
    ensures r.Some? ==> Bounded(r.value.sources) && Cached(after, r.value.sources)
  {
    LegalSizes(h);
    hide LegalHeader, PayloadSize, AcceptSource, AcceptFilter, AcceptComplete, AcceptReducedContext, AcceptTransitions,
      AcceptWindow, AcceptLayout, AcceptKernel, AcceptSummary, Bounded, Cached;
    after := cache;
    if h.kind == ExecutableLayout {
      r := AcceptLayout(s, b);
      if r.Some? { LayoutKeeps(s, b, r.value); }
      return r, after;
    }
    if s.features.executableLayout && !s.layoutSeen && h.kind != RegisterSchema &&
      h.kind != Error { return None, after; }
    if h.kind == KernelRequest || h.kind == GuestEvent {
      r := CheckKernel(s, h);
      KernelIgnoresKeys(s, {}, h);
      return r, after;
    }
    if h.kind == ReducedContext {
      r := CheckReducedContext(s, h, b);
      if r.Some? { ReducedKeeps(s, cache, h, b, r.value); }
      return r, after;
    }
    if h.kind == ObservationSummary {
      r := AcceptSummary(s, h, b);
      if r.Some? { SummaryKeeps(s, cache, h, b, r.value); }
      return r, after;
    }
    if h.kind == ContextFilter {
      r := CheckFilter(s, b);
      if r.Some? { FilterKeeps(s, b, r.value); }
      return r, after;
    }
    if h.kind == Error || h.kind == TerminalReport { return Some(s.(finished := true)), after; }
    if h.kind == Complete {
      r := CheckComplete(s);
      if r.Some? { CompleteKeeps(s, r.value); }
      return r, after;
    }
    if h.kind == RegisterSchema || Sequenced(h.kind) { r, after := CheckSource(s, cache, h, b); return r, after; }
    return None, after;
  }

  lemma ReducedKeeps(s: State, cache: seq<bool>, h: Header, b: seq<byte>, t: State)
    requires h.source < MAX_SOURCES && 0 < h.count && h.count * REDUCED_CONTEXT_BYTES <= |b|
    requires AcceptReducedContext(s, h, b) == Some(t) && Bounded(s.sources) && Cached(cache, s.sources)
    ensures Bounded(t.sources) && Cached(cache, t.sources)
  {
    hide ValidReducedRow, ReducedBlock;
    KeepSource(cache, s.sources, h.source, t.sources[h.source]);
  }

  lemma SummaryKeeps(s: State, cache: seq<bool>, h: Header, b: seq<byte>, t: State)
    requires h.source < MAX_SOURCES && SUMMARY_BYTES <= |b|
    requires AcceptSummary(s, h, b) == Some(t) && Bounded(s.sources) && Cached(cache, s.sources)
    ensures Bounded(t.sources) && Cached(cache, t.sources)
  {
    hide ClosesSource, ReductionAt;
    KeepSource(cache, s.sources, h.source, t.sources[h.source]);
  }

  lemma LayoutKeeps(s: State, b: seq<byte>, t: State)
    requires LAYOUT_BYTES <= |b| && AcceptLayout(s, b) == Some(t)
    ensures t.sources == s.sources
  {
  }

  lemma FilterKeeps(s: State, b: seq<byte>, t: State)
    requires FILTER_BYTES <= |b| && AcceptFilter(s, b) == Some(t)
    ensures t.sources == s.sources
  {
    hide FilterTotalsAt, ClosesFilter;
  }

  lemma CompleteKeeps(s: State, t: State)
    requires AcceptComplete(s) == Some(t)
    ensures t.sources == s.sources
  {
  }

  /** Window counters a plain frame cannot change. */
  lemma PlainKeepsWindow(s: State, h: Header, b: seq<byte>, t: State)
    requires |b| == PayloadSize(h) && AcceptSingle(s, h, b) == Some(t) && s.started
    requires h.kind != BlockTransitions && h.kind != TransitionWindow
    ensures t.windows.next == s.windows.next && t.windows.observed == s.windows.observed
    ensures t.windows.keys == s.windows.keys
  {
    hide AcceptSingle, LegalHeader, AcceptSource, AcceptReducedContext, AcceptSummary, BoundaryReady, PayloadSize;
    if Global(h.kind) {
      GlobalStep(s, h, b, t);
      if h.kind != KernelRequest { GlobalKeepsWindows(s, h, b, t); }
    } else {
      SourceStep(s, h, b, t);
      if h.kind == ReducedContext || h.kind == ObservationSummary { ReductionKeepsWindows(s, h, b, t); }
      else { SourceKeepsWindows(s, h, b, t); }
    }
  }

  lemma SourceFrameIgnoresKeys(s: State, keys: set<Key>, h: Header, b: seq<byte>)
    requires |b| == PayloadSize(h) && LegalHeader(h) && s.started
    requires h.kind == RegisterSchema || Sequenced(h.kind)
    ensures AcceptSingle(WithKeys(s, keys), h, b) == Lift(AcceptSingle(s, h, b), keys)
  {
    hide WithKeys, Lift, LegalHeader, PayloadSize, AcceptSource, AcceptFilter, AcceptComplete, AcceptReducedContext,
      AcceptTransitions, AcceptWindow, AcceptLayout, AcceptKernel, AcceptSummary;
    LegalSizes(h);
    SourceIgnoresKeys(s, keys, h, b);
    SameHeaderFields(s, keys);
  }

  lemma ReducedFrameIgnoresKeys(s: State, keys: set<Key>, h: Header, b: seq<byte>)
    requires |b| == PayloadSize(h) && LegalHeader(h) && s.started
    requires h.kind == ReducedContext || h.kind == ObservationSummary
    ensures AcceptSingle(WithKeys(s, keys), h, b) == Lift(AcceptSingle(s, h, b), keys)
  {
    hide WithKeys, Lift, LegalHeader, PayloadSize, AcceptSource, AcceptFilter, AcceptComplete, AcceptReducedContext,
      AcceptTransitions, AcceptWindow, AcceptLayout, AcceptKernel, AcceptSummary;
    LegalSizes(h);
    ReductionIgnoresKeys(s, keys, h, b);
    SameHeaderFields(s, keys);
  }

  lemma KernelFrameIgnoresKeys(s: State, keys: set<Key>, h: Header, b: seq<byte>)
    requires |b| == PayloadSize(h) && LegalHeader(h) && s.started
    requires h.kind == KernelRequest || h.kind == GuestEvent
    ensures AcceptSingle(WithKeys(s, keys), h, b) == Lift(AcceptSingle(s, h, b), keys)
  {
    hide WithKeys, Lift, LegalHeader, PayloadSize, AcceptSource, AcceptFilter, AcceptComplete, AcceptReducedContext,
      AcceptTransitions, AcceptWindow, AcceptLayout, AcceptKernel, AcceptSummary;
    LegalSizes(h);
    KernelIgnoresKeys(s, keys, h);
    SameHeaderFields(s, keys);
  }

  lemma GlobalFrameIgnoresKeys(s: State, keys: set<Key>, h: Header, b: seq<byte>)
    requires |b| == PayloadSize(h) && LegalHeader(h) && s.started
    requires h.kind == ContextFilter || h.kind == ExecutableLayout || h.kind == Complete
    ensures AcceptSingle(WithKeys(s, keys), h, b) == Lift(AcceptSingle(s, h, b), keys)
  {
    hide WithKeys, Lift, LegalHeader, PayloadSize, AcceptSource, AcceptFilter, AcceptComplete, AcceptReducedContext,
      AcceptTransitions, AcceptWindow, AcceptLayout, AcceptKernel, AcceptSummary;
    LegalSizes(h);
    GlobalIgnoresKeys(s, keys, b);
    SameHeaderFields(s, keys);
  }

  lemma FailureFrameIgnoresKeys(s: State, keys: set<Key>, h: Header, b: seq<byte>)
    requires |b| == PayloadSize(h) && LegalHeader(h) && s.started && (h.kind == Error || h.kind == TerminalReport)
    ensures AcceptSingle(WithKeys(s, keys), h, b) == Lift(AcceptSingle(s, h, b), keys)
  {
    FinishedIgnoresKeys(s, keys);
    hide WithKeys, Lift, LegalHeader, PayloadSize, AcceptSource, AcceptFilter, AcceptComplete, AcceptReducedContext,
      AcceptTransitions, AcceptWindow, AcceptLayout, AcceptKernel, AcceptSummary;
    SameHeaderFields(s, keys);
  }

  lemma FinishedIgnoresKeys(s: State, keys: set<Key>)
    ensures Some(WithKeys(s, keys).(finished := true)) == Lift(Some(s.(finished := true)), keys)
  {
  }

  lemma UnexpectedFrameIgnoresKeys(s: State, keys: set<Key>, h: Header, b: seq<byte>)
    requires |b| == PayloadSize(h) && LegalHeader(h) && s.started
    requires h.kind == Hello || h.kind == Mixed || h.kind.Unknown?
    ensures AcceptSingle(WithKeys(s, keys), h, b) == Lift(AcceptSingle(s, h, b), keys)
  {
    hide WithKeys, Lift, LegalHeader, PayloadSize, AcceptSource, AcceptFilter, AcceptComplete, AcceptReducedContext,
      AcceptTransitions, AcceptWindow, AcceptLayout, AcceptKernel, AcceptSummary, TransitionRows, FeaturesOf;
    SameHeaderFields(s, keys);
  }

  lemma PlainIgnoresKeys(s: State, keys: set<Key>, h: Header, b: seq<byte>)
    requires |b| == PayloadSize(h) && LegalHeader(h) && s.started
    requires h.kind != BlockTransitions && h.kind != TransitionWindow
    ensures AcceptSingle(WithKeys(s, keys), h, b) == Lift(AcceptSingle(s, h, b), keys)
  {
    hide LegalHeader, PayloadSize, AcceptSingle, WithKeys, Lift;
    if h.kind == RegisterSchema || Sequenced(h.kind) {
      SourceFrameIgnoresKeys(s, keys, h, b);
    } else if h.kind == ReducedContext || h.kind == ObservationSummary {
      ReducedFrameIgnoresKeys(s, keys, h, b);
    } else if h.kind == KernelRequest || h.kind == GuestEvent {
      KernelFrameIgnoresKeys(s, keys, h, b);
    } else if h.kind == ContextFilter || h.kind == ExecutableLayout || h.kind == Complete {
      GlobalFrameIgnoresKeys(s, keys, h, b);
    } else if h.kind == Error || h.kind == TerminalReport {
      FailureFrameIgnoresKeys(s, keys, h, b);
    } else {
      UnexpectedFrameIgnoresKeys(s, keys, h, b);
    }
  }

  /** One frame against the concrete fields. */
  method Check(s: State, slots: seq<KeySlot>, live: nat, cache: seq<bool>, hash: Key -> nat, h: Header, b: seq<byte>)
    returns (r: Option<State>, keys: seq<KeySlot>, distinct: nat, after: seq<bool>)
    requires Sound(s, slots, live, cache, hash) && |b| == PayloadSize(h)
    ensures Agrees(AcceptSingle(WithKeys(s, Live(slots, s.windows.next)), h, b), r, keys, distinct, after, hash)
  {
    ghost var known := Live(slots, s.windows.next);
    keys, distinct, after := slots, live, cache;
    hide WithKeys, Live, Holds, Bounded, Cached, AcceptSource, AcceptFilter, AcceptComplete, AcceptReducedContext,
      AcceptTransitions, AcceptWindow, AcceptLayout, AcceptKernel, AcceptSummary, PayloadSize, LegalHeader, FeaturesOf;
    SameHeaderFields(s, known);
    if !LegalHeader(h) || h.kind == Mixed || s.finished || (s.started && h.version != s.version) {
      return None, keys, distinct, after;
    }
    LegalSizes(h);
    if !s.started {
      if h.kind == TerminalReport || h.kind == Hello { OpeningIgnoresKeys(s, known, h, b); }
      if h.kind == TerminalReport { return Some(s.(version := h.version, finished := true)), keys, distinct, after; }
      if h.kind != Hello { return None, keys, distinct, after; }
      return Some(s.(started := true, version := h.version, features := FeaturesOf(h.detail))), keys, distinct, after;
    }
    if h.kind == BlockTransitions || h.kind == TransitionWindow {
      if s.features.executableLayout && !s.layoutSeen { return None, keys, distinct, after; }
      if h.kind == BlockTransitions {
        r, keys, distinct := CheckTransitions(s, slots, live, hash, cache, h, b);
      } else {
        r := CheckWindow(s, slots, live, hash, cache, h, b);
        distinct := 0;
      }
      return r, keys, distinct, after;
    }
    PlainIgnoresKeys(s, known, h, b);
    r, after := CheckPlain(s, cache, h, b);
    if r.Some? { PlainKeepsWindow(s, h, b, r.value); }
  }

  lemma OpeningIgnoresKeys(s: State, keys: set<Key>, h: Header, b: seq<byte>)
    requires |b| == PayloadSize(h) && LegalHeader(h) && !s.started && !s.finished
    requires h.kind == TerminalReport || h.kind == Hello
    ensures AcceptSingle(WithKeys(s, keys), h, b) ==
      Some(WithKeys(if h.kind == TerminalReport then s.(version := h.version, finished := true)
                    else s.(started := true, version := h.version, features := FeaturesOf(h.detail)), keys))
  {
    hide LegalHeader, FeaturesOf;
  }

  class Stream {
    const hash: Key -> nat
    /** Every field but the duplicate detector; its key set stays empty and unused. */
    var state: State
    var slots: seq<KeySlot>
    var distinct: nat
    var baselineComplete: seq<bool>

    ghost predicate Valid()
      reads this
    {
      Sound(state, slots, distinct, baselineComplete, hash)
    }

    /** The abstract state: the hash table is a set, and the cached flags are gone. */
    ghost function View(): State
      reads this
    {
      WithKeys(state, Live(slots, state.windows.next))
    }

    constructor (hash: Key -> nat)
      ensures Valid() && View() == Initial()
    {
      this.hash := hash;
      state := Initial();
      slots, distinct := [], 0;
      baselineComplete := seq(MAX_SOURCES, _ => false);
      EmptyHolds(hash);
    }

    method AcceptSingle(h: Header, b: seq<byte>) returns (ok: bool)
      requires Valid() && |b| == PayloadSize(h)
      modifies this
      ensures ok <==> Validator.AcceptSingle(old(View()), h, b).Some?
      ensures ok ==> Valid() && Some(View()) == Validator.AcceptSingle(old(View()), h, b)
    {
      hide Validator.AcceptSingle, Sound, WithKeys, Live;
      var r: Option<State>, keys: seq<KeySlot>, live: nat, cache: seq<bool>;
      r, keys, live, cache := Check(state, slots, distinct, baselineComplete, hash, h, b);
      if r.None? { return false; }
      state, slots, distinct, baselineComplete := r.value, keys, live, cache;
      return true;
    }

    /** The run loop of a mixed frame: each run is parsed and accepted before the next is looked at. */
    method AcceptRuns(h: Header, b: seq<byte>) returns (ok: bool)
      requires Valid() && |b| <= MAX_PAYLOAD
      modifies this
      ensures var spec := Runs(old(View()), h, b);
        (ok <==> spec.Some?) && (ok ==> Valid() && Some(View()) == spec)
    {
      hide Validator.AcceptSingle, Sound, WithKeys, Live, RunsAt, RunFrames, AcceptSingles, KindOf, Load, PayloadSize,
        Parsed, SizedRuns, RowTotal;
      ghost var before := View();
      ghost var done: seq<Run> := [];
      NothingParsed(before, h, b);
      ParsedFacts(b, h.count, done, 0, 0);
      var offset: nat, count: nat := 0, 0;
      while offset < |b|
        invariant Valid() && offset <= |b| && count <= h.count && Parsed(b, h.count, done, offset, count)
        invariant SizedRuns(done) && count == RowTotal(done)
        invariant AcceptSingles(before, RunFrames(h, done)) == Some(View())
      {
        ParseStep(b, h.count, done, offset, count);
        if |b| - offset < 8 { return false; }
        var kind, rows, size := KindOf(U16(b, offset)), U16(b, offset + 2), U32(b, offset + 4);
        if !RunKind(kind) || rows == 0 || rows > h.count - count || size > |b| - offset - 8 ||
          (kind == Blocks && size != rows * 8) { return false; }
        var data := b[offset + 8..offset + 8 + size];
        var run := RunFrame(h, h.sequence + count, Run(kind, rows, data));
        FrameStep(before, h, done, Run(kind, rows, data), count);
        ok := AcceptSingle(run.header, run.payload);
        if !ok {
          PrefixRejects(before, h, b, done + [Run(kind, rows, data)], offset + 8 + size, count + rows);
          return false;
        }
        done := done + [Run(kind, rows, data)];
        offset := offset + 8 + size;
        count := count + rows;
        ParsedFacts(b, h.count, done, offset, count);
      }
      RunsDone(before, h, b, done, count);
      return count == h.count;
    }

    method Accept(frame: Frame) returns (ok: bool)
      requires Valid() && WellSized(frame)
      modifies this
      ensures ok <==> Validator.Accept(old(View()), frame).Some?
      ensures ok ==> Valid() && Some(View()) == Validator.Accept(old(View()), frame)
    {
      var h := frame.header;
      ghost var known := Live(slots, state.windows.next);
      SameHeaderFields(state, known);
      if LegalHeader(h) { LegalSizes(h); }
      hide Validator.AcceptSingle, Sound, WithKeys, Live, LegalHeader, AcceptSingles, RunsAt;
      if h.kind != Mixed {
        ok := AcceptSingle(h, frame.payload);
        return ok;
      }
      if !LegalHeader(h) || state.finished || !state.started || h.version != state.version || !state.features.mixed {
        return false;
      }
      ok := AcceptRuns(h, frame.payload);
    }
  }

  /** A mixed payload's meaning: parse every run, then accept the runs as frames. */
  ghost function Runs(s: State, h: Header, b: seq<byte>): Option<State> {
    match RunsAt(b, 0, h.count)
    case None => None
    case Some(runs) => AcceptSingles(s, RunFrames(h, runs))
  }

  /** `done` is what the loop has parsed up to `offset`, using `count` rows. */
  ghost predicate Parsed(b: seq<byte>, total: nat, done: seq<Run>, offset: nat, count: nat) {
    && offset <= |b| && count <= total && count == RowTotal(done)
    && SizedRuns(done)
    && RunsAt(b, 0, total) ==
         match RunsAt(b, offset, total - count) { case None => None case Some(rest) => Some(done + rest) }
  }

  lemma NothingParsed(s: State, h: Header, b: seq<byte>)
    ensures Parsed(b, h.count, [], 0, 0) && AcceptSingles(s, RunFrames(h, [])) == Some(s)
  {
    if RunsAt(b, 0, h.count).Some? { assert [] + RunsAt(b, 0, h.count).value == RunsAt(b, 0, h.count).value; }
    assert RunFrames(h, []) == [];
  }

  lemma RunsDone(s: State, h: Header, b: seq<byte>, done: seq<Run>, count: nat)
    requires Parsed(b, h.count, done, |b|, count)
    ensures Runs(s, h, b) == if count == h.count then AcceptSingles(s, RunFrames(h, done)) else None
  {
    hide AcceptSingles, RunFrames;
    assert done + [] == done;
  }

  /** One more run: either parsing fails here, or the parsed prefix grows by exactly that run. */
  lemma ParsedFacts(b: seq<byte>, total: nat, done: seq<Run>, offset: nat, count: nat)
    requires Parsed(b, total, done, offset, count)
    ensures offset <= |b| && count <= total && count == RowTotal(done) && SizedRuns(done)
  {
    hide RunsAt, SizedRuns, RowTotal;
  }

  lemma ParseStep(b: seq<byte>, total: nat, done: seq<Run>, offset: nat, count: nat)
    requires Parsed(b, total, done, offset, count) && offset < |b|
    ensures |b| - offset < 8 ==> RunsAt(b, 0, total).None?
    ensures |b| - offset >= 8 ==>
      var kind, rows, size := KindOf(U16(b, offset)), U16(b, offset + 2), U32(b, offset + 4);
      if !RunKind(kind) || rows == 0 || rows > total - count || size > |b| - offset - 8 ||
         (kind == Blocks && size != rows * 8)
      then RunsAt(b, 0, total).None?
      else Parsed(b, total, done + [Run(kind, rows, b[offset + 8..offset + 8 + size])], offset + 8 + size, count + rows)
  {
    hide KindOf, Load;
    if |b| - offset >= 8 {
      var kind, rows, size := KindOf(U16(b, offset)), U16(b, offset + 2), U32(b, offset + 4);
      if RunKind(kind) && 0 < rows <= total - count && size <= |b| - offset - 8 &&
         (kind == Blocks ==> size == rows * 8)
      {
        var run := Run(kind, rows, b[offset + 8..offset + 8 + size]);
        assert (done + [run])[..|done|] == done;
        var rest := RunsAt(b, offset + 8 + size, total - count - rows);
        if rest.Some? { assert done + ([run] + rest.value) == done + [run] + rest.value; }
      }
    }
  }

  lemma {:induction false} FramesOfPrefix(h: Header, done: seq<Run>, more: seq<Run>)
    requires SizedRuns(done + more)
    requires SizedRuns(done)
    ensures RunFrames(h, done + more)[..|done|] == RunFrames(h, done)
  {
    hide RunFrame, SizedRun, WellSized;
    if more == [] {
      assert done + more == done;
    } else {
      var fewer := more[..|more| - 1];
      assert (done + more)[..|done + more| - 1] == done + fewer;
      FramesOfPrefix(h, done, fewer);
    }
  }

  lemma FramesUnfold(h: Header, runs: seq<Run>)
    requires SizedRuns(runs) && runs != []
    ensures var front, last := runs[..|runs| - 1], runs[|runs| - 1];
      RunFrames(h, runs) == RunFrames(h, front) + [RunFrame(h, h.sequence + RowTotal(front), last)]
  {
    hide RunFrame, RowTotal, SizedRun, WellSized;
  }

  lemma FramesAppend(h: Header, done: seq<Run>, run: Run)
    requires SizedRuns(done) && SizedRun(run)
    ensures SizedRuns(done + [run])
    ensures RunFrames(h, done + [run]) == RunFrames(h, done) + [RunFrame(h, h.sequence + RowTotal(done), run)]
  {
    hide RunFrames, RunFrame, RowTotal, SizedRun, WellSized;
    assert (done + [run])[..|done|] == done;
    FramesUnfold(h, done + [run]);
  }

  lemma SinglesStep(s: State, frames: seq<Frame>, frame: Frame)
    requires WellSized(frame) && forall i :: 0 <= i < |frames| ==> WellSized(frames[i])
    ensures AcceptSingles(s, frames + [frame]) ==
      match AcceptSingles(s, frames)
      case None => None
      case Some(t) => AcceptSingle(t, frame.header, frame.payload)
  {
    hide AcceptSingle;
    assert (frames + [frame])[..|frames|] == frames;
  }

  lemma FrameStep(s: State, h: Header, done: seq<Run>, run: Run, count: nat)
    requires SizedRuns(done)
    requires SizedRun(run) && count == RowTotal(done)
    ensures SizedRuns(done + [run])
    ensures var frame := RunFrame(h, h.sequence + count, run);
      WellSized(frame) &&
      AcceptSingles(s, RunFrames(h, done + [run])) ==
        match AcceptSingles(s, RunFrames(h, done))
        case None => None
        case Some(t) => AcceptSingle(t, frame.header, frame.payload)
  {
    hide AcceptSingle, AcceptSingles, RunFrames, RunFrame, RowTotal;
    FramesAppend(h, done, run);
    SinglesStep(s, RunFrames(h, done), RunFrame(h, h.sequence + count, run));
  }

  lemma {:induction false} SinglesPrefix(s: State, frames: seq<Frame>, n: nat)
    requires forall i :: 0 <= i < |frames| ==> WellSized(frames[i])
    requires n <= |frames| && AcceptSingles(s, frames[..n]).None?
    ensures AcceptSingles(s, frames).None?
  {
    hide AcceptSingle;
    if n == |frames| {
      assert frames[..n] == frames;
    } else {
      assert frames[..|frames| - 1][..n] == frames[..n];
      SinglesPrefix(s, frames[..|frames| - 1], n);
    }
  }

  /** A run rejected early rejects the frame, whatever follows it. */
  lemma PrefixRejects(s: State, h: Header, b: seq<byte>, done: seq<Run>, offset: nat, count: nat)
    requires Parsed(b, h.count, done, offset, count) && AcceptSingles(s, RunFrames(h, done)).None?
    ensures Runs(s, h, b).None?
  {
    hide AcceptSingles, RunsAt, RunFrames, RowTotal, SizedRun;
    var rest := RunsAt(b, offset, h.count - count);
    if rest.Some? {
      FramesOfPrefix(h, done, rest.value);
      SinglesPrefix(s, RunFrames(h, done + rest.value), |done|);
    }
  }
}
