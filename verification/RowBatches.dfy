/**
How a vCPU's rows are batched into frames, on values: legacy frames hold rows of
one kind, mixed frames hold runs of rows with an eight-byte header each. The
byte buffer that builds these frames in place is in `SourceBuffer`.
*/
module RowBatches {
  import opened Words
  import opened Wire
  import opened Validator

  /** One appended row: its kind and its bytes. */
  datatype Item = Item(kind: Kind, data: seq<byte>)

  /** What the buffer holds: the frame kind, the next sequence and the rows not yet flushed. */
  datatype Batch = Batch(kind: Kind, next: nat, items: seq<Item>)

  // ---------------------------------------------------------------- runs

  /** Adds a row to the last run if it has the same kind, else opens a run for it. */
  function AddRow(runs: seq<Run>, item: Item): (r: seq<Run>) {
    if runs != [] && runs[|runs| - 1].kind == item.kind
    then
      var last := runs[|runs| - 1];
      runs[..|runs| - 1] + [Run(last.kind, last.rows + 1, last.data + item.data)]
    else runs + [Run(item.kind, 1, item.data)]
  }

  /** The maximal runs of equal kinds. */
  function Grouped(items: seq<Item>): seq<Run> {
    if items == [] then [] else AddRow(Grouped(items[..|items| - 1]), items[|items| - 1])
  }

  function RunHeader(kind: Kind, rows: nat, size: nat): (b: seq<byte>)
    ensures |b| == 8
  {
    Bytes(Code(kind), 2) + Bytes(rows, 2) + Bytes(size, 4)
  }

  function RunBytes(run: Run): (b: seq<byte>)
    ensures |b| == 8 + |run.data|
  {
    RunHeader(run.kind, run.rows, |run.data|) + run.data
  }

  function RunsBytes(runs: seq<Run>): seq<byte> {
    if runs == [] then [] else RunsBytes(runs[..|runs| - 1]) + RunBytes(runs[|runs| - 1])
  }

  function Joined(items: seq<Item>): seq<byte> {
    if items == [] then [] else Joined(items[..|items| - 1]) + items[|items| - 1].data
  }

  // ---------------------------------------------------------------- frames

  function Payload(b: Batch): seq<byte> {
    if b.kind == Mixed then RunsBytes(Grouped(b.items)) else Joined(b.items)
  }

  function BatchHeader(index: nat, b: Batch): Header
    requires b.kind == RegisterSchema || |b.items| <= b.next
  {
    Header(b.kind, index, |b.items|, if b.kind == RegisterSchema then 0 else b.next - |b.items|,
           if b.kind == Blocks then 0 else |Payload(b)|, VERSION)
  }

  function BatchFrame(index: nat, b: Batch): Frame
    requires b.kind == RegisterSchema || |b.items| <= b.next
  {
    Frame(BatchHeader(index, b), Payload(b))
  }

  /** The frame a flush emits: none when nothing is buffered. */
  function Flushed(index: nat, b: Batch): seq<Frame>
    requires b.kind == RegisterSchema || |b.items| <= b.next
  {
    if b.items == [] then [] else [BatchFrame(index, b)]
  }

  /** Whether the row needs a run header of its own. */
  predicate OpensRun(b: Batch, kind: Kind) {
    b.items == [] || b.items[|b.items| - 1].kind != kind
  }

  predicate UsesRuns(mixed: bool, kind: Kind) {
    mixed && kind != RegisterSchema
  }

  /** Whether the row joins what is buffered. */
  predicate Joins(b: Batch, mixed: bool, item: Item) {
    if UsesRuns(mixed, item.kind) then
      && b.kind == Mixed && |b.items| != MAX_ROWS
      && |Payload(b)| + |item.data| + (if OpensRun(b, item.kind) then 8 else 0) <= MAX_PAYLOAD
    else
      && b.kind == item.kind && |Payload(b)| + |item.data| <= MAX_PAYLOAD
      && !(item.kind == Blocks && |b.items| == MAX_ROWS)
  }

  function Joining(b: Batch, mixed: bool, item: Item): Batch {
    var base := if Joins(b, mixed, item) then b else b.(items := []);
    Batch(if UsesRuns(mixed, item.kind) then Mixed else item.kind,
          if item.kind == RegisterSchema then b.next else b.next + 1, base.items + [item])
  }

  /** A row small enough to fit a frame of its own. */
  predicate Fits(mixed: bool, item: Item) {
    && (if item.kind == Blocks then |item.data| == 8 else 17 <= |item.data|)
    && |item.data| + (if UsesRuns(mixed, item.kind) then 8 else 0) <= MAX_PAYLOAD
    && (UsesRuns(mixed, item.kind) ==> RunKind(item.kind))
    && item.kind != Mixed
  }

  /** A buffer reached by appending rows that fit. */
  ghost predicate Valid(b: Batch, mixed: bool) {
    && |b.items| <= MAX_ROWS && b.next <= MAX64
    && (b.kind == RegisterSchema || |b.items| <= b.next)
    && |Payload(b)| <= MAX_PAYLOAD
    && (forall i :: 0 <= i < |b.items| ==> Fits(mixed, b.items[i]))
    && (forall i :: 0 <= i < |b.items| ==>
          (if b.kind == Mixed then UsesRuns(mixed, b.items[i].kind) else b.items[i].kind == b.kind))
  }

  // ---------------------------------------------------------------- sizes

  lemma AppendJoined(items: seq<Item>, item: Item)
    ensures Joined(items + [item]) == Joined(items) + item.data
  {
    assert (items + [item])[..|items|] == items;
  }

  lemma AppendGrouped(items: seq<Item>, item: Item)
    ensures Grouped(items + [item]) == AddRow(Grouped(items), item)
  {
    assert (items + [item])[..|items|] == items;
  }

  lemma AppendRuns(runs: seq<Run>, run: Run)
    ensures RunsBytes(runs + [run]) == RunsBytes(runs) + RunBytes(run)
  {
    assert (runs + [run])[..|runs|] == runs;
  }

  /** The last run is of the last row's kind. */
  lemma {:induction false} LastRun(items: seq<Item>)
    ensures Grouped(items) == [] <==> items == []
    ensures items != [] ==> Grouped(items)[|Grouped(items)| - 1].kind == items[|items| - 1].kind
  {
    NoItems();
    hide Grouped;
    if items == [] {
    } else {
      var front, last := items[..|items| - 1], items[|items| - 1];
      LastRun(front);
      assert items == front + [last];
      AppendGrouped(front, last);
    }
  }

  /** The payload with its last run's header counting one more row. */
  function Patched(runs: seq<Run>, item: Item): seq<byte>
    requires runs != []
  {
    var last := runs[|runs| - 1];
    RunsBytes(runs[..|runs| - 1]) + RunHeader(item.kind, last.rows + 1, |last.data| + |item.data|) + last.data
  }

  /** The payload after a row joins: the last run's header patched, or a new header, then the row. */
  lemma PayloadGrows(items: seq<Item>, item: Item)
    ensures var opens := items == [] || items[|items| - 1].kind != item.kind;
      RunsBytes(Grouped(items + [item])) ==
      if opens then RunsBytes(Grouped(items)) + RunHeader(item.kind, 1, |item.data|) + item.data
      else Patched(Grouped(items), item) + item.data
  {
    hide RunHeader, Grouped, RunsBytes, AddRow, Patched;
    LastRun(items);
    AppendGrouped(items, item);
    if items == [] || items[|items| - 1].kind != item.kind { OpenedBytes(Grouped(items), item); }
    else { PatchedBytes(Grouped(items), item); }
  }

  lemma OpenedBytes(runs: seq<Run>, item: Item)
    requires runs != [] ==> runs[|runs| - 1].kind != item.kind
    ensures RunsBytes(AddRow(runs, item)) == RunsBytes(runs) + RunHeader(item.kind, 1, |item.data|) + item.data
  {
    hide RunHeader, RunsBytes;
    AppendRuns(runs, Run(item.kind, 1, item.data));
  }

  lemma PatchedBytes(runs: seq<Run>, item: Item)
    requires runs != [] && runs[|runs| - 1].kind == item.kind
    ensures RunsBytes(AddRow(runs, item)) == Patched(runs, item) + item.data
  {
    hide RunHeader, RunsBytes;
    var front, last := runs[..|runs| - 1], runs[|runs| - 1];
    var grown := Run(last.kind, last.rows + 1, last.data + item.data);
    AppendRuns(front, grown);
    var head := RunHeader(item.kind, last.rows + 1, |last.data| + |item.data|);
    assert RunBytes(grown) == head + (last.data + item.data);
    AppendAssociates(RunsBytes(front), head, last.data, item.data);
  }

  lemma AppendAssociates(a: seq<byte>, b: seq<byte>, c: seq<byte>, d: seq<byte>)
    ensures a + (b + (c + d)) == a + b + c + d
  {
  }

  /** Joining keeps the buffer within a frame. */
  lemma JoiningValid(b: Batch, mixed: bool, item: Item)
    requires Valid(b, mixed) && Fits(mixed, item) && b.next < MAX64
    ensures Valid(Joining(b, mixed, item), mixed)
    ensures |Payload(Joining(b, mixed, item))| ==
      (if Joins(b, mixed, item) then |Payload(b)| else 0) + |item.data| +
      if UsesRuns(mixed, item.kind) && (!Joins(b, mixed, item) || OpensRun(b, item.kind)) then 8 else 0
  {
    hide Grouped, RunsBytes, RunHeader, Joined;
    var base := if Joins(b, mixed, item) then b.items else [];
    if UsesRuns(mixed, item.kind) {
      PayloadGrows(base, item);
      LastRun(base);
      RunsSplit(base);
      NoItems();
    } else {
      NoItems();
      AppendJoined(base, item);
      assert Joining(b, mixed, item).kind == item.kind != Mixed;
      if Joins(b, mixed, item) { LegacyRows(b, mixed, item); }
    }
  }

  lemma NoItems()
    ensures Joined([]) == [] && Grouped([]) == [] && RunsBytes([]) == []
  {
  }

  lemma RunsSplit(items: seq<Item>)
    ensures var runs := Grouped(items);
      runs != [] ==> |RunsBytes(runs)| == |RunsBytes(runs[..|runs| - 1])| + 8 + |runs[|runs| - 1].data|
  {
    hide Grouped, RunBytes;
  }

  lemma LegacyRows(b: Batch, mixed: bool, item: Item)
    requires Valid(b, mixed) && Fits(mixed, item) && !UsesRuns(mixed, item.kind) && Joins(b, mixed, item)
    ensures |b.items| < MAX_ROWS
  {
    if item.kind != Blocks && |b.items| == MAX_ROWS {
      JoinedFits(b.items, item.kind, mixed);
    }
  }

  lemma {:induction false} JoinedFits(items: seq<Item>, kind: Kind, mixed: bool)
    requires forall i :: 0 <= i < |items| ==> Fits(mixed, items[i]) && items[i].kind == kind
    ensures |Joined(items)| >= 8 * |items|
    ensures kind == Blocks ==> |Joined(items)| == 8 * |items|
    ensures kind != Blocks ==> |Joined(items)| >= 17 * |items|
  {
    if items != [] { JoinedFits(items[..|items| - 1], kind, mixed); }
  }
}
