/**
The plugin's per-vCPU frame buffer: one fixed array in which rows are appended,
run headers are patched in place and a frame header is written on flush. Its
contents are always the payload of the batch in `RowBatches`.
*/
module SourceBuffer {
  import opened Words
  import opened Wire
  import opened Validator
  import opened RowBatches
  import MixedTables

  const FRAME_BYTES: nat := 4096

  /** Writes the next field of a header that already holds `done`. */
  method Put(a: array<byte>, value: nat, size: nat, ghost done: seq<byte>, at: nat)
    requires at == |done| && at + size <= a.Length && a[..at] == done
    modifies a
    ensures a[..at + size] == done + Bytes(value, size)
    ensures a[at + size..] == old(a[at + size..])
    ensures forall i :: at + size <= i < a.Length ==> a[i] == old(a[i])
  {
    hide Bytes;
    Store(a, at, value, size);
    ghost var now := a[..];
    assert now[..at + size] == done + Bytes(value, size);
    assert now[at + size..] == old(a[at + size..]);
    forall i | at + size <= i < a.Length ensures a[i] == old(a[i]) {
      assert now[at + size..][i - at - size] == old(a[at + size..])[i - at - size];
    }
  }

  /** `encode_header`: the 32 header bytes, in place. */
  method EncodeInto(a: array<byte>, h: Header)
    requires HEADER_BYTES <= a.Length
    modifies a
    ensures a[..HEADER_BYTES] == EncodeHeader(h)
    ensures a[HEADER_BYTES..] == old(a[HEADER_BYTES..])
  {
    hide Bytes, Code;
    ghost var tail := a[HEADER_BYTES..];
    assert a[..0] == [];
    Put(a, WIRE_MAGIC, 4, [], 0);
    ghost var d := [] + Bytes(WIRE_MAGIC, 4);
    Put(a, h.version, 2, d, 4);
    d := d + Bytes(h.version, 2);
    Put(a, Code(h.kind), 2, d, 6);
    d := d + Bytes(Code(h.kind), 2);
    Put(a, h.source, 4, d, 8);
    d := d + Bytes(h.source, 4);
    Put(a, h.count, 4, d, 12);
    d := d + Bytes(h.count, 4);
    Put(a, h.sequence, 8, d, 16);
    d := d + Bytes(h.sequence, 8);
    Put(a, h.detail, 8, d, 24);
    assert d + Bytes(h.detail, 8) == EncodeHeader(h);
    assert a[HEADER_BYTES..] == tail;
  }

  /** A run header that counts no row yet. */
  method OpenRun(a: array<byte>, at: nat, kind: Kind)
    requires at + 8 <= a.Length
    modifies a
    ensures a[..at] == old(a[..at]) && a[at..at + 8] == RunHeader(kind, 0, 0)
  {
    hide Bytes, Code;
    ghost var front := a[..at];
    Put(a, Code(kind), 2, front, at);
    ghost var d := front + Bytes(Code(kind), 2);
    Put(a, 0, 2, d, at + 2);
    d := d + Bytes(0, 2);
    Put(a, 0, 4, d, at + 4);
    d := d + Bytes(0, 4);
    assert a[..at + 8] == d == front + RunHeader(kind, 0, 0);
    assert a[..at] == a[..at + 8][..at] == front;
    assert a[at..at + 8] == a[..at + 8][at..];
  }

  /** One more row of `extra` bytes in the run whose header is at `at`. */
  method PatchRun(a: array<byte>, at: nat, extra: nat, ghost kind: Kind, ghost rows: nat, ghost size: nat)
    requires at + 8 <= a.Length && a[at..at + 8] == RunHeader(kind, rows, size)
    requires rows <= MAX16 && size <= MAX32
    modifies a
    ensures a[..] == old(a[..at]) + RunHeader(kind, rows + 1, size + extra) + old(a[at + 8..])
  {
    hide Bytes, Code, Load;
    ghost var before := a[..];
    FieldsOfRun(before, at, kind, rows, size);
    ghost var d := before[..at + 2];
    assert d == before[..at] + Bytes(Code(kind), 2) by { assert before[at..at + 2] == Bytes(Code(kind), 2); }
    assert a[..] == before;
    var count := U16(a[..], at + 2);
    var bytes := U32(a[..], at + 4);
    assert a[..at + 2] == d;
    Put(a, count + 1, 2, d, at + 2);
    d := d + Bytes(rows + 1, 2);
    assert a[at + 4..] == before[at + 4..];
    Put(a, bytes + extra, 4, d, at + 4);
    assert a[at + 8..] == before[at + 8..] by {
      assert before[at + 8..] == before[at + 4..][4..];
    }
    assert a[..] == a[..at + 8] + a[at + 8..];
  }

  lemma FieldsOfRun(b: seq<byte>, at: nat, kind: Kind, rows: nat, size: nat)
    requires at + 8 <= |b| && b[at..at + 8] == RunHeader(kind, rows, size) && rows <= MAX16 && size <= MAX32
    ensures b[at..at + 2] == Bytes(Code(kind), 2)
    ensures U16(b, at + 2) == rows && U32(b, at + 4) == size
  {
    hide Bytes, Code, Load;
    Pow256Words();
    ghost var head := b[at..at + 8];
    assert b[at..at + 2] == head[..2] == Bytes(Code(kind), 2);
    assert b[at + 2..at + 4] == Bytes(rows, 2) by {
      forall k | 0 <= k < 2 ensures b[at + 2 + k] == Bytes(rows, 2)[k] { assert head[2 + k] == b[at + 2 + k]; }
    }
    assert b[at + 4..at + 8] == head[4..] == Bytes(size, 4);
    LoadStored(b, at + 2, 2, rows);
    LoadStored(b, at + 4, 4, size);
  }

  /** The caller's row, stored where `append` pointed. */
  method CopyInto(a: array<byte>, at: nat, data: seq<byte>)
    requires at + |data| <= a.Length
    modifies a
    ensures a[..] == old(a[..at]) + data + old(a[at + |data|..])
  {
    ghost var before := a[..];
    var i := 0;
    while i < |data|
      invariant i <= |data|
      invariant a[..] == before[..at] + data[..i] + before[at + i..]
    {
      a[at + i] := data[i];
      assert data[..i + 1] == data[..i] + [data[i]];
      assert a[..] == before[..at] + data[..i + 1] + before[at + i + 1..];
      i := i + 1;
    }
    assert data[..i] == data;
  }

  /** The same, seen as the payload growing by the row. */
  method PutRow(a: array<byte>, at: nat, data: seq<byte>, ghost payload: seq<byte>)
    requires a.Length == FRAME_BYTES && at + |data| <= MAX_PAYLOAD && a[HEADER_BYTES..HEADER_BYTES + at] == payload
    modifies a
    ensures a[HEADER_BYTES..HEADER_BYTES + at + |data|] == payload + data
  {
    ghost var before := a[..];
    CopyInto(a, HEADER_BYTES + at, data);
    assert a[HEADER_BYTES..HEADER_BYTES + at + |data|] == before[HEADER_BYTES..HEADER_BYTES + at] + data;
  }

  /** Frames as the bytes that are published. */
  function OnWire(frames: seq<Frame>): (b: seq<seq<byte>>)
    ensures |b| == |frames|
  {
    seq(|frames|, i requires 0 <= i < |frames| => EncodeHeader(frames[i].header) + frames[i].payload)
  }

  class Buffer {
    const index: nat
    const mixed: bool
    const bytes: array<byte>
    var kind: Kind
    var next: nat
    var count: nat
    var used: nat
    var runKind: Kind
    var runOffset: nat
    var published: seq<seq<byte>>
    ghost var rows: seq<Item>

    ghost function View(): Batch
      reads this
    {
      Batch(kind, next, rows)
    }

    /** The array holds the batch's payload; the run fields locate its last run header. */
    ghost predicate Valid()
      reads this, bytes
    {
      && bytes.Length == FRAME_BYTES
      && RowBatches.Valid(View(), mixed)
      && count == |rows| && used == |Payload(View())|
      && bytes[HEADER_BYTES..HEADER_BYTES + used] == Payload(View())
      && (kind == Mixed && rows != [] ==> AtLastRun(rows, runKind, runOffset))
    }

    constructor (index: nat, mixed: bool)
      ensures Valid() && View() == Batch(Blocks, 0, []) && published == [] && fresh(bytes)
      ensures this.index == index && this.mixed == mixed
    {
      this.index, this.mixed := index, mixed;
      bytes := new byte[FRAME_BYTES](_ => 0);
      kind, next, count, used, runKind, runOffset, published, rows := Blocks, 0, 0, 0, Blocks, 0, [], [];
    }

    /** Publishes what is buffered, under the header of the batch. */
    method Flush()
      requires Valid()
      modifies this`count, this`used, this`published, this`rows, bytes
      ensures Valid() && View() == old(View()).(items := [])
      ensures published == old(published) + OnWire(Flushed(index, old(View())))
    {
      hide Grouped, RunsBytes, Joined, EncodeHeader, RowBatches.Valid;
      if count == 0 {
        assert published + OnWire([]) == published;
        return;
      }
      ghost var b := View();
      ValidBatch(b, mixed);
      var h := Header(kind, index, count, if kind == RegisterSchema then 0 else next - count,
                      if kind == Blocks then 0 else used, VERSION);
      assert h == BatchHeader(index, b);
      EncodeInto(bytes, h);
      assert bytes[HEADER_BYTES..HEADER_BYTES + used] == Payload(b);
      assert bytes[..HEADER_BYTES + used] == EncodeHeader(h) + Payload(b);
      published := published + [bytes[..HEADER_BYTES + used]];
      assert OnWire(Flushed(index, b)) == [EncodeHeader(h) + Payload(b)];
      count, used, rows := 0, 0, [];
      EmptyBatch(b, mixed);
    }

    /** Appends a row: flushes first when it does not join what is buffered. */
    method Append(item: Item) returns (ok: bool)
      requires Valid() && Fits(mixed, item)
      modifies this, bytes
      ensures ok <==> item.kind == RegisterSchema || old(next) < MAX64
      ensures ok ==> Valid() && View() == Joining(old(View()), mixed, item)
      ensures ok ==> published == old(published) + OnWire(Emitted(index, old(View()), mixed, item))
    {
      hide Fits, Payload, Grouped, RunsBytes, Joined, EncodeHeader, Joins, Joining, RowBatches.Valid;
      if mixed && item.kind != RegisterSchema {
        ok := AppendMixed(item);
      } else {
        ok := AppendLegacy(item);
      }
    }

    /** Flushes unless the row fits behind what is buffered; the buffer then holds runs. */
    method MakeRoom(item: Item)
      requires Valid() && Fits(mixed, item) && UsesRuns(mixed, item.kind)
      modifies this`kind, this`count, this`used, this`published, this`rows, bytes
      ensures rows == (if Joins(old(View()), mixed, item) then old(rows) else []) && Room(rows, item)
      ensures kind == Mixed && count == |rows| && used == |RunsBytes(Grouped(rows))|
      ensures bytes[HEADER_BYTES..HEADER_BYTES + used] == RunsBytes(Grouped(rows))
      ensures rows != [] ==> AtLastRun(rows, runKind, runOffset) && runKind == rows[|rows| - 1].kind
      ensures published == old(published) + OnWire(Emitted(index, old(View()), mixed, item))
    {
      hide Fits, Payload, Grouped, RunsBytes, Joined, Joins, RowBatches.Valid, AtLastRun, OnWire, Flushed, Room;
      ghost var b := View();
      JoinsMixed(b, mixed, item, runKind, runOffset);
      NoItems();
      NoFrames();
      if kind != Mixed || count == MAX_ROWS ||
         used + |item.data| + (if count == 0 || runKind != item.kind then 8 else 0) > MAX_PAYLOAD
      {
        Flush();
        EmptyBatch(b, mixed);
        assert used == 0;
      } else {
        PayloadOfRuns(b);
      }
      kind := Mixed;
      RoomMixed(b, mixed, item, rows);
    }

    /** The path of rows that travel in runs. */
    method AppendMixed(item: Item) returns (ok: bool)
      requires Valid() && Fits(mixed, item) && UsesRuns(mixed, item.kind)
      modifies this, bytes
      ensures ok <==> old(next) < MAX64
      ensures ok ==> Valid() && View() == Joining(old(View()), mixed, item)
      ensures ok ==> published == old(published) + OnWire(Emitted(index, old(View()), mixed, item))
    {
      hide Fits, Payload, Grouped, RunsBytes, Joined, Joins, Joining, RowBatches.Valid, AtLastRun, OnWire, Emitted,
        Room, Headed;
      ghost var b := View();
      ValidBatch(b, mixed);
      MakeRoom(item);
      ghost var base := rows;
      var opens := count == 0 || runKind != item.kind;
      if opens {
        runKind, runOffset := item.kind, used;
      }
      var at := WriteHeader(bytes, base, used, runOffset, opens, item);
      if next == MAX64 {
        return false;
      }
      next := next + 1;
      count := count + 1;
      PutRow(bytes, at, item.data, Headed(base, item));
      used := at + |item.data|;
      rows := base + [item];
      ok := true;
      JoinedMixed(b, mixed, item, base, runKind, runOffset);
    }

    /** Flushes unless the row continues a frame of its own kind. */
    method MakeLegacyRoom(item: Item)
      requires Valid() && Fits(mixed, item) && !UsesRuns(mixed, item.kind)
      modifies this`kind, this`count, this`used, this`published, this`rows, bytes
      ensures rows == (if Joins(old(View()), mixed, item) then old(View()) else old(View()).(items := [])).items
      ensures kind == item.kind && count == |rows|
      ensures used == |Payload(Batch(item.kind, next, rows))| && used + |item.data| <= MAX_PAYLOAD
      ensures bytes[HEADER_BYTES..HEADER_BYTES + used] == Payload(Batch(item.kind, next, rows))
      ensures published == old(published) + OnWire(Emitted(index, old(View()), mixed, item))
    {
      hide Fits, Payload, Grouped, RunsBytes, Joined, Joins, RowBatches.Valid, AtLastRun, OnWire, Flushed;
      ghost var b := View();
      JoinsLegacy(b, mixed, item);
      NoFrames();
      if kind != item.kind || used + |item.data| > MAX_PAYLOAD || (item.kind == Blocks && count == MAX_ROWS) {
        Flush();
        EmptyBatch(b, mixed);
        NoPayload(item.kind, next);
      }
      kind := item.kind;
    }

    /** The path of frames that hold one kind of row. */
    method AppendLegacy(item: Item) returns (ok: bool)
      requires Valid() && Fits(mixed, item) && !UsesRuns(mixed, item.kind)
      modifies this, bytes
      ensures ok <==> item.kind == RegisterSchema || old(next) < MAX64
      ensures ok ==> Valid() && View() == Joining(old(View()), mixed, item)
      ensures ok ==> published == old(published) + OnWire(Emitted(index, old(View()), mixed, item))
    {
      hide Fits, Payload, Grouped, RunsBytes, Joined, Joining, Joins, RowBatches.Valid, AtLastRun, OnWire, Emitted;
      ghost var b := View();
      ValidBatch(b, mixed);
      MakeLegacyRoom(item);
      if item.kind != RegisterSchema {
        if next == MAX64 {
          return false;
        }
        next := next + 1;
      }
      LegacyRoom(b, mixed, item);
      PutRow(bytes, used, item.data, Payload(Batch(kind, b.next, rows)));
      used := used + |item.data|;
      count := count + 1;
      rows := rows + [item];
      ok := true;
    }
  }

  /** The frame, if any, that makes room for the row. */
  function Emitted(index: nat, b: Batch, mixed: bool, item: Item): seq<Frame>
    requires b.kind == RegisterSchema || |b.items| <= b.next
  {
    if Joins(b, mixed, item) then [] else Flushed(index, b)
  }

  lemma NoFrames()
    ensures OnWire([]) == []
  {
  }

  lemma JoinsLegacy(b: Batch, mixed: bool, item: Item)
    requires !UsesRuns(mixed, item.kind) && Fits(mixed, item)
    ensures Joins(b, mixed, item) <==>
      !(b.kind != item.kind || |Payload(b)| + |item.data| > MAX_PAYLOAD ||
        (item.kind == Blocks && |b.items| == MAX_ROWS))
    ensures |item.data| <= MAX_PAYLOAD
  {
    hide Payload;
  }

  lemma NoPayload(kind: Kind, next: nat)
    ensures Payload(Batch(kind, next, [])) == []
  {
  }

  /** A row joining a legacy batch extends the joined bytes. */
  lemma LegacyRoom(b: Batch, mixed: bool, item: Item)
    requires RowBatches.Valid(b, mixed) && Fits(mixed, item) && !UsesRuns(mixed, item.kind)
    requires item.kind == RegisterSchema || b.next < MAX64
    ensures var r, base := Joining(b, mixed, item), if Joins(b, mixed, item) then b else b.(items := []);
      && RowBatches.Valid(r, mixed) && r == Batch(item.kind, r.next, base.items + [item]) && item.kind != Mixed
      && r.next == (if item.kind == RegisterSchema then b.next else b.next + 1)
      && Payload(r)
         == Payload(Batch(item.kind, r.next - if item.kind == RegisterSchema then 0 else 1, base.items)) + item.data
      && |Payload(r)| <= MAX_PAYLOAD
  {
    NoItems();
    hide Grouped, RunsBytes, Joined;
    var base := if Joins(b, mixed, item) then b.items else [];
    AppendJoined(base, item);
    if Joins(b, mixed, item) { LegacyRows(b, mixed, item); }
  }

  lemma PayloadOfRuns(b: Batch)
    requires b.kind == Mixed
    ensures Payload(b) == RunsBytes(Grouped(b.items))
  {
  }

  /** The run header bytes of the next row: a new header, or the last one patched. */
  function Headed(base: seq<Item>, item: Item): seq<byte> {
    if base == [] || base[|base| - 1].kind != item.kind
    then RunsBytes(Grouped(base)) + RunHeader(item.kind, 1, |item.data|)
    else LastRun(base); Patched(Grouped(base), item)
  }

  /** What may be in the buffer when a row joins it as part of a run. */
  ghost predicate Room(base: seq<Item>, item: Item) {
    && (forall i :: 0 <= i < |base| ==> Fits(true, base[i]) && UsesRuns(true, base[i].kind))
    && |base| < MAX_ROWS
    && |RunsBytes(Grouped(base))| + |item.data| + (if base == [] || base[|base| - 1].kind != item.kind then 8 else 0)
         <= MAX_PAYLOAD
  }

  method WriteHeader(a: array<byte>, ghost base: seq<Item>, used: nat, runOffset: nat, opens: bool, item: Item)
    returns (at: nat)
    requires a.Length == FRAME_BYTES && Room(base, item)
    requires used == |RunsBytes(Grouped(base))| && a[HEADER_BYTES..HEADER_BYTES + used] == RunsBytes(Grouped(base))
    requires opens <==> base == [] || base[|base| - 1].kind != item.kind
    requires if opens then runOffset == used else AtLastRun(base, item.kind, runOffset)
    modifies a
    ensures at == (used + if opens then 8 else 0) && at + |item.data| <= MAX_PAYLOAD
    ensures a[HEADER_BYTES..HEADER_BYTES + at] == Headed(base, item)
  {
    hide Grouped, RunsBytes, RunHeader, Fits;
    at := used;
    ghost var before := a[..];
    ghost var rows, size := 0, 0;
    if opens {
      OpenRun(a, HEADER_BYTES + used, item.kind);
      at := used + 8;
    } else {
      rows, size := LastHeader(before, base, item.kind, runOffset);
    }
    ghost var begun := a[..];
    PatchRun(a, HEADER_BYTES + runOffset, |item.data|, item.kind, rows, size);
    if opens {
      PatchedPayload(before, begun, a[..], base, item, used, runOffset);
    } else {
      PatchedLast(before, a[..], base, item, used, runOffset);
    }
  }

  /** The last run's header is where the buffer says it is. */
  lemma LastHeader(b: seq<byte>, base: seq<Item>, kind: Kind, runOffset: nat) returns (rows: nat, size: nat)
    requires |b| == FRAME_BYTES && AtLastRun(base, kind, runOffset) && |base| <= MAX_ROWS
    requires forall i :: 0 <= i < |base| ==> Fits(true, base[i]) && UsesRuns(true, base[i].kind)
    requires |RunsBytes(Grouped(base))| <= MAX_PAYLOAD
    requires b[HEADER_BYTES..HEADER_BYTES + |RunsBytes(Grouped(base))|] == RunsBytes(Grouped(base))
    ensures var last := Grouped(base)[|Grouped(base)| - 1];
      rows == last.rows <= MAX16 && size == |last.data| && runOffset + 8 + size == |RunsBytes(Grouped(base))|
    ensures b[HEADER_BYTES + runOffset..HEADER_BYTES + runOffset + 8] == RunHeader(kind, rows, size)
  {
    hide Grouped, RunHeader, Fits;
    MixedTables.GroupedRuns(base);
    var runs := Grouped(base);
    var last := runs[|runs| - 1];
    rows, size := last.rows, |last.data|;
    var p := RunsBytes(runs);
    assert p == RunsBytes(runs[..|runs| - 1]) + (RunHeader(kind, rows, size) + last.data);
    assert p[runOffset..runOffset + 8] == RunHeader(kind, rows, size);
    MixedTables.SubSlice(b, HEADER_BYTES, HEADER_BYTES + |p|, runOffset, runOffset + 8);
  }

  /** Opening and patching touch nothing but the run's own header. */
  lemma PatchedPayload(before: seq<byte>, begun: seq<byte>, after: seq<byte>, base: seq<Item>, item: Item,
                       used: nat, runOffset: nat)
    requires |before| == |begun| == FRAME_BYTES && used == |RunsBytes(Grouped(base))| && used + 8 <= MAX_PAYLOAD
    requires before[HEADER_BYTES..HEADER_BYTES + used] == RunsBytes(Grouped(base))
    requires base == [] || base[|base| - 1].kind != item.kind
    requires runOffset == used && begun[..HEADER_BYTES + used] == before[..HEADER_BYTES + used]
    requires after
             == begun[..HEADER_BYTES + used] + RunHeader(item.kind, 1, |item.data|) + begun[HEADER_BYTES + used + 8..]
    ensures after[HEADER_BYTES..HEADER_BYTES + used + 8] == Headed(base, item)
  {
    hide Grouped, RunHeader, RunsBytes;
    assert after[HEADER_BYTES..HEADER_BYTES + used] == begun[..HEADER_BYTES + used][HEADER_BYTES..] ==
      before[..HEADER_BYTES + used][HEADER_BYTES..] == before[HEADER_BYTES..HEADER_BYTES + used];
  }

  lemma PatchedLast(before: seq<byte>, after: seq<byte>, base: seq<Item>, item: Item, used: nat, runOffset: nat)
    requires |before| == FRAME_BYTES && used == |RunsBytes(Grouped(base))| <= MAX_PAYLOAD
    requires before[HEADER_BYTES..HEADER_BYTES + used] == RunsBytes(Grouped(base))
    requires base != [] && base[|base| - 1].kind == item.kind && AtLastRun(base, item.kind, runOffset)
    requires var last := Grouped(base)[|Grouped(base)| - 1];
      && runOffset + 8 + |last.data| == used
      && after == before[..HEADER_BYTES + runOffset] + RunHeader(item.kind, last.rows + 1, |last.data| + |item.data|) +
           before[HEADER_BYTES + runOffset + 8..]
    ensures after[HEADER_BYTES..HEADER_BYTES + used] == Headed(base, item)
  {
    hide Grouped, RunHeader;
    var runs := Grouped(base);
    var last := runs[|runs| - 1];
    var front, head := RunsBytes(runs[..|runs| - 1]), RunHeader(item.kind, last.rows + 1, |last.data| + |item.data|);
    LastParts(runs);
    hide RunsBytes, RunBytes;
    MixedTables.SubSlice(before, HEADER_BYTES, HEADER_BYTES + used, 0, runOffset);
    MixedTables.SubSlice(before, HEADER_BYTES, HEADER_BYTES + used, runOffset + 8, used);
    PatchMiddle(before, head, HEADER_BYTES, HEADER_BYTES + runOffset, HEADER_BYTES + used);
  }

  lemma {:induction false} LastParts(runs: seq<Run>)
    requires runs != []
    ensures var front, last := RunsBytes(runs[..|runs| - 1]), runs[|runs| - 1];
      && |RunsBytes(runs)| == |front| + 8 + |last.data|
      && RunsBytes(runs)[..|front|] == front && RunsBytes(runs)[|front| + 8..] == last.data
  {
    hide RunHeader, RunsBytes;
    var front, last := runs[..|runs| - 1], runs[|runs| - 1];
    assert runs == front + [last];
    AppendRuns(front, last);
    ThreeParts(RunsBytes(front), RunHeader(last.kind, last.rows, |last.data|), last.data);
  }

  lemma ThreeParts(a: seq<byte>, b: seq<byte>, c: seq<byte>)
    ensures (a + (b + c))[..|a|] == a && (a + (b + c))[|a| + |b|..] == c
  {
    MixedTables.ThreeParts(a, b, c);
    assert a + (b + c) == a + b + c;
  }

  lemma PatchMiddle(s: seq<byte>, head: seq<byte>, from: nat, at: nat, to: nat)
    requires from <= at && at + 8 <= to <= |s| && |head| == 8
    ensures (s[..at] + head + s[at + 8..])[from..to] == s[from..at] + head + s[at + 8..to]
  {
  }

  lemma RoomMixed(b: Batch, mixed: bool, item: Item, base: seq<Item>)
    requires RowBatches.Valid(b, mixed) && Fits(mixed, item) && UsesRuns(mixed, item.kind)
    requires base == if Joins(b, mixed, item) then b.items else []
    ensures Room(base, item)
  {
    NoItems();
    hide Grouped, RunsBytes;
  }

  /** The buffer after a row joined is the batch with that row. */
  lemma JoinedMixed(b: Batch, mixed: bool, item: Item, base: seq<Item>, runKind: Kind, runOffset: nat)
    requires RowBatches.Valid(b, mixed) && Fits(mixed, item) && UsesRuns(mixed, item.kind) && b.next < MAX64
    requires base == if Joins(b, mixed, item) then b.items else []
    requires runKind == item.kind
    requires if base == [] || base[|base| - 1].kind != item.kind then runOffset == |RunsBytes(Grouped(base))|
      else AtLastRun(base, runKind, runOffset)
    ensures var r := Joining(b, mixed, item);
      && r == Batch(Mixed, b.next + 1, base + [item]) && RowBatches.Valid(r, mixed)
      && Payload(r) == Headed(base, item) + item.data
    ensures AtLastRun(base + [item], runKind, runOffset)
  {
    hide Grouped, RunsBytes, RunHeader, Fits, RowBatches.Valid, Joins, Patched;
    JoiningValid(b, mixed, item);
    PayloadGrows(base, item);
    LastRun(base);
    AppendGrouped(base, item);
  }

  lemma JoinsMixed(b: Batch, mixed: bool, item: Item, runKind: Kind, runOffset: nat)
    requires UsesRuns(mixed, item.kind) && (b.kind == Mixed && b.items != [] ==> AtLastRun(b.items, runKind, runOffset))
    ensures Joins(b, mixed, item) <==>
      !(b.kind != Mixed || |b.items| == MAX_ROWS ||
        |Payload(b)| + |item.data| + (if b.items == [] || runKind != item.kind then 8 else 0) > MAX_PAYLOAD)
    ensures b.kind == Mixed && b.items != [] ==> runKind == b.items[|b.items| - 1].kind
  {
    LastRun(b.items);
    hide Grouped, RunsBytes, Payload;
  }

  ghost predicate AtLastRun(rows: seq<Item>, runKind: Kind, runOffset: nat) {
    var runs := Grouped(rows);
    runs != [] && runs[|runs| - 1].kind == runKind && runOffset == |RunsBytes(runs[..|runs| - 1])|
  }

  lemma ValidBatch(b: Batch, mixed: bool)
    requires RowBatches.Valid(b, mixed)
    ensures b.kind == RegisterSchema || |b.items| <= b.next
    ensures |Payload(b)| <= MAX_PAYLOAD && b.next <= MAX64
  {
  }

  lemma EmptyBatch(b: Batch, mixed: bool)
    requires RowBatches.Valid(b, mixed)
    ensures RowBatches.Valid(b.(items := []), mixed) && Payload(b.(items := [])) == []
  {
    NoItems();
    hide Grouped, RunsBytes, Joined;
  }
}
