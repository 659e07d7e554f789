/**
Mixed batching over whole runs: whatever rows are appended and wherever the
buffer is flushed, decoding the emitted frames and merging their tables gives
back exactly those rows, numbered 0, 1, 2, ...
*/
module BatchRuns {
  import opened Words
  import opened Wire
  import opened Validator
  import opened RowBatches
  import opened MixedTables

  /** What a reader gets from one mixed frame: its tables merged by sequence number. */
  function DecodeFrame(f: Features, frame: Frame): Option<seq<Numbered>> {
    match RunsAt(frame.payload, 0, frame.header.count)
    case None => None
    case Some(runs) =>
      var first := frame.header.sequence;
      var a := TableRows(f, KINDS[0], Tabulated(first, runs, KINDS[0]));
      var b := TableRows(f, KINDS[1], Tabulated(first, runs, KINDS[1]));
      var c := TableRows(f, KINDS[2], Tabulated(first, runs, KINDS[2]));
      var d := TableRows(f, KINDS[3], Tabulated(first, runs, KINDS[3]));
      if a.None? || b.None? || c.None? || d.None? then None
      else Some(Merge([a.value, b.value, c.value, d.value], frame.header.count))
  }

  function DecodeFrames(f: Features, frames: seq<Frame>): Option<seq<Numbered>> {
    if frames == [] then Some([])
    else
      match DecodeFrames(f, frames[..|frames| - 1])
      case None => None
      case Some(front) =>
        match DecodeFrame(f, frames[|frames| - 1])
        case None => None
        case Some(last) => Some(front + last)
  }

  /** A row the plugin appends in mixed mode with these features. */
  predicate MixedRow(f: Features, item: Item) {
    Fits(true, item) && RunKind(item.kind) && SelfSized(f, item)
  }

  /** The frame bounds of the mixed layout. */
  predicate Bounded(frame: Frame) {
    && frame.header.kind == Mixed && WellSized(frame)
    && 1 <= frame.header.count <= 256 && 16 <= |frame.payload| <= 4064
  }

  lemma BatchParses(b: Batch)
    requires Valid(b, true) && b.kind == Mixed && b.items != []
    ensures 16 <= |Payload(b)| <= MAX_PAYLOAD
    ensures RunsAt(Payload(b), 0, |b.items|) == Some(Grouped(b.items))
  {
    hide Fits, RunHeader, Grouped, RunsBytes, RowTotal, RunsAt, Joined;
    NoItems();
    GroupedRuns(b.items);
    var runs := Grouped(b.items);
    AllParse(runs);
  }

  lemma AllParse(runs: seq<Run>)
    requires forall i :: 0 <= i < |runs| ==> Encodable(runs[i])
    ensures RunsAt(RunsBytes(runs), 0, RowTotal(runs)) == Some(runs)
  {
    NoItems();
    NoRows();
    hide RunsBytes, RowTotal, RunsAt, Encodable;
    assert runs[..0] == [] && runs[0..] == runs;
    ParseRuns(runs, 0);
  }

  lemma NoRows()
    ensures RowTotal([]) == 0
  {
  }

  lemma SelectedRows(f: Features, first: nat, items: seq<Item>, kind: Kind)
    requires forall i :: 0 <= i < |items| ==> MixedRow(f, items[i])
    ensures TableRows(f, kind, Tabulated(first, Grouped(items), kind)) == Some(Select(Number(items, first), kind))
  {
    hide TableRows, SelfSized, Fits;
    assert forall i :: 0 <= i < |items| ==> UsesRuns(true, items[i].kind);
    TabulatedGrouped(first, items, kind);
    var ns := Select(Number(items, first), kind);
    forall i | 0 <= i < |ns| ensures SelfSized(f, ns[i].item) {
      assert ns[i] in Number(items, first);
    }
    TableRowsBack(f, kind, ns);
  }

  /** One frame: legal bounds, and decoding inverts batching. */
  lemma FrameRoundTrip(f: Features, index: nat, b: Batch)
    requires Valid(b, true) && b.kind == Mixed && b.items != []
    requires forall i :: 0 <= i < |b.items| ==> MixedRow(f, b.items[i])
    ensures Bounded(BatchFrame(index, b))
    ensures index < MAX_SOURCES ==> LegalHeader(BatchHeader(index, b))
    ensures DecodeFrame(f, BatchFrame(index, b)) == Some(Number(b.items, b.next - |b.items|))
  {
    hide MixedRow, Payload, Grouped, TableRows, Tabulated, Select, Number, Merge;
    BatchParses(b);
    var first := b.next - |b.items|;
    SelectedRows(f, first, b.items, KINDS[0]);
    SelectedRows(f, first, b.items, KINDS[1]);
    SelectedRows(f, first, b.items, KINDS[2]);
    SelectedRows(f, first, b.items, KINDS[3]);
    forall i | 0 <= i < |b.items| ensures RunKind(b.items[i].kind) {
      assert MixedRow(f, b.items[i]);
      ARunKind(f, b.items[i]);
    }
    MergeSelections(b.items, first);
    var ns := Number(b.items, first);
    assert Selections(ns) == [Select(ns, KINDS[0]), Select(ns, KINDS[1]), Select(ns, KINDS[2]), Select(ns, KINDS[3])];
  }

  lemma ARunKind(f: Features, item: Item)
    requires MixedRow(f, item)
    ensures RunKind(item.kind)
  {
  }

  // ---------------------------------------------------------------- whole runs

  datatype Op = Append(item: Item) | Flush

  datatype Outcome = Outcome(batch: Batch, frames: seq<Frame>)

  function StepBatch(index: nat, mixed: bool, o: Outcome, op: Op): Option<Outcome>
    requires o.batch.kind == RegisterSchema || |o.batch.items| <= o.batch.next
  {
    match op
    case Flush => Some(Outcome(o.batch.(items := []), o.frames + Flushed(index, o.batch)))
    case Append(item) =>
      if item.kind != RegisterSchema && o.batch.next >= MAX64 then None
      else
        Some(Outcome(Joining(o.batch, mixed, item),
                     o.frames + if Joins(o.batch, mixed, item) then [] else Flushed(index, o.batch)))
  }

  /** The rows a run appends. */
  function Rows(ops: seq<Op>): seq<Item> {
    if ops == [] then []
    else
      var last := ops[|ops| - 1];
      Rows(ops[..|ops| - 1]) + if last.Append? then [last.item] else []
  }

  /** The whole run from an empty buffer. */
  function RunBatch(index: nat, mixed: bool, ops: seq<Op>): (r: Option<Outcome>)
    ensures r.Some? ==> r.value.batch.kind == RegisterSchema || |r.value.batch.items| <= r.value.batch.next
  {
    if ops == [] then Some(Outcome(Batch(Blocks, 0, []), []))
    else
      match RunBatch(index, mixed, ops[..|ops| - 1])
      case None => None
      case Some(o) => StepBatch(index, mixed, o, ops[|ops| - 1])
  }

  /** Emitted rows and buffered rows are the appended rows, in order and numbered from 0. */
  ghost predicate Accounts(f: Features, o: Outcome, rows: seq<Item>) {
    var b := o.batch;
    && Valid(b, true) && (b.kind == Mixed || b.items == [])
    && b.next == |rows| && |b.items| <= |rows| && b.items == rows[|rows| - |b.items|..]
    && (forall i :: 0 <= i < |rows| ==> MixedRow(f, rows[i]))
    && DecodeFrames(f, o.frames) == Some(Number(rows[..|rows| - |b.items|], 0))
    && forall i :: 0 <= i < |o.frames| ==> Bounded(o.frames[i])
  }

  lemma FlushAccounts(f: Features, index: nat, o: Outcome, rows: seq<Item>)
    requires Accounts(f, o, rows)
    ensures Accounts(f, Outcome(o.batch.(items := []), o.frames + Flushed(index, o.batch)), rows)
  {
    hide Accounts, Valid, DecodeFrame, BatchFrame, MixedRow, Bounded, Number;
    AccountsNext(f, o, rows);
    EmptyValid(o.batch);
    if o.batch.items == [] {
      assert o.batch.(items := []) == o.batch;
      assert o.frames + [] == o.frames;
    } else {
      FlushedRows(f, o, rows);
      FrameRoundTrip(f, index, o.batch);
      EmittedAccounts(f, o, rows, BatchFrame(index, o.batch));
    }
  }

  lemma FlushedRows(f: Features, o: Outcome, rows: seq<Item>)
    requires Accounts(f, o, rows) && o.batch.items != []
    ensures Valid(o.batch, true) && o.batch.kind == Mixed && |o.batch.items| <= o.batch.next
    ensures forall i :: 0 <= i < |o.batch.items| ==> MixedRow(f, o.batch.items[i])
  {
    hide DecodeFrames, MixedRow, Bounded, Number, Fits, Payload;
  }

  lemma EmittedAccounts(f: Features, o: Outcome, rows: seq<Item>, frame: Frame)
    requires Accounts(f, o, rows) && |o.batch.items| <= o.batch.next && Valid(o.batch.(items := []), true)
    requires Bounded(frame) && DecodeFrame(f, frame) == Some(Number(o.batch.items, o.batch.next - |o.batch.items|))
    requires o.batch.kind == Mixed
    ensures Accounts(f, Outcome(o.batch.(items := []), o.frames + [frame]), rows)
  {
    hide DecodeFrames, DecodeFrame, MixedRow, Bounded, Number, Valid;
    DecodeAppend(f, o.frames, frame);
    NumberSplit(rows, |rows| - |o.batch.items|);
    assert rows[..|rows| - 0] == rows && rows[|rows| - 0..] == [];
  }

  lemma EmptyValid(b: Batch)
    requires Valid(b, true)
    ensures Valid(b.(items := []), true)
    ensures b.kind == RegisterSchema || |b.items| <= b.next
  {
    NoItems();
    hide Grouped, RunsBytes, Joined, Fits;
  }

  lemma NumberSplit(rows: seq<Item>, n: nat)
    requires n <= |rows|
    ensures Number(rows, 0) == Number(rows[..n], 0) + Number(rows[n..], n)
  {
  }

  lemma DecodeAppend(f: Features, frames: seq<Frame>, frame: Frame)
    requires DecodeFrames(f, frames).Some? && DecodeFrame(f, frame).Some?
    ensures DecodeFrames(f, frames + [frame]) == Some(DecodeFrames(f, frames).value + DecodeFrame(f, frame).value)
  {
    hide DecodeFrame;
    assert (frames + [frame])[..|frames|] == frames;
  }

  lemma JoinAccounts(f: Features, o: Outcome, rows: seq<Item>, item: Item)
    requires Accounts(f, o, rows) && MixedRow(f, item) && |rows| < MAX64
    requires Joins(o.batch, true, item) || o.batch.items == []
    ensures Accounts(f, Outcome(Joining(o.batch, true, item), o.frames), rows + [item])
  {
    hide DecodeFrames, Bounded, Payload, Fits, Number, SelfSized;
    JoiningValid(o.batch, true, item);
    var b, n := o.batch, |rows| - |o.batch.items|;
    assert (rows + [item])[..n] == rows[..n];
    assert (rows + [item])[n..] == rows[n..] + [item];
  }

  /**
   * Every run: it fails exactly when more than 2^64 - 1 rows are appended, and
   * otherwise no row is lost, repeated, renumbered or changed.
   */
  lemma {:induction false} BatchingRoundTrip(f: Features, index: nat, ops: seq<Op>)
    requires forall i :: 0 <= i < |ops| && ops[i].Append? ==> MixedRow(f, ops[i].item)
    ensures RunBatch(index, true, ops).Some? <==> |Rows(ops)| <= MAX64
    ensures RunBatch(index, true, ops).Some? ==> Accounts(f, RunBatch(index, true, ops).value, Rows(ops))
  {
    hide DecodeFrames, DecodeFrame, Bounded, Fits, Number, SelfSized, MixedRow;
    if ops == [] {
      NoItems();
      hide Grouped, RunsBytes, Joined;
      NothingDecoded(f);
      assert Rows(ops)[..0] == Rows(ops);
      assert Number(Rows(ops), 0) == [];
    } else {
      var front, last := ops[..|ops| - 1], ops[|ops| - 1];
      BatchingRoundTrip(f, index, front);
      if RunBatch(index, true, front).Some? {
        hide Rows, RunBatch, Joins, Joining, Flushed;
        StepAccounts(f, index, RunBatch(index, true, front).value, Rows(front), last);
      }
      RunUnfold(index, front, last);
      assert ops == front + [last];
    }
  }

  lemma NothingDecoded(f: Features)
    ensures DecodeFrames(f, []) == Some([])
  {
  }

  lemma RunUnfold(index: nat, ops: seq<Op>, op: Op)
    ensures RunBatch(index, true, ops + [op]) ==
      if RunBatch(index, true, ops).None? then None else StepBatch(index, true, RunBatch(index, true, ops).value, op)
    ensures Rows(ops + [op]) == Rows(ops) + if op.Append? then [op.item] else []
  {
    hide StepBatch;
    assert (ops + [op])[..|ops|] == ops;
  }

  lemma StepAccounts(f: Features, index: nat, o: Outcome, rows: seq<Item>, op: Op)
    requires Accounts(f, o, rows) && (op.Append? ==> MixedRow(f, op.item))
    ensures var r := StepBatch(index, true, o, op);
      && (r.None? <==> op.Append? && |rows| == MAX64)
      && (r.Some? ==> Accounts(f, r.value, rows + if op.Append? then [op.item] else []))
  {
    hide Accounts, Joins, Payload, Flushed;
    AccountsNext(f, o, rows);
    FlushAccounts(f, index, o, rows);
    if op.Flush? {
      assert rows + [] == rows;
    } else {
      assert op.item.kind != RegisterSchema by { ARunKind(f, op.item); }
      if |rows| < MAX64 {
        if Joins(o.batch, true, op.item) {
          assert o.frames + [] == o.frames;
          JoinAccounts(f, o, rows, op.item);
        } else {
          var flushed := Outcome(o.batch.(items := []), o.frames + Flushed(index, o.batch));
          JoinAccounts(f, flushed, rows, op.item);
          JoinEmpty(o.batch, op.item);
        }
      }
    }
  }

  lemma AccountsNext(f: Features, o: Outcome, rows: seq<Item>)
    requires Accounts(f, o, rows)
    ensures Valid(o.batch, true) && o.batch.next == |rows| <= MAX64 && |o.batch.items| <= |rows|
  {
    hide DecodeFrames, MixedRow, Bounded, Number, Fits, Payload;
  }

  lemma JoinEmpty(b: Batch, item: Item)
    requires !Joins(b, true, item)
    ensures Joining(b.(items := []), true, item) == Joining(b, true, item)
  {
    hide Joins;
  }
}
