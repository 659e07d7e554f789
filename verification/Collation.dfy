/**
Collating batches: `merge_batches`, and which pending batches a collator holds
and flushes. Bounds on pending work hold after every call, and every CPU's rows
come out in order, whatever the interleaving of CPUs.
*/
module Collation {
  import opened Words
  import opened Batches

  const MAX_BATCH_BYTES: nat := 0x40_0000
  const MAX_SOURCE_FRAMES: nat := 256
  const MAX_PENDING_FRAMES: nat := 512

  datatype Signal = Blocks | Registers | Memory | Context

  /** The CPU a batch belongs to. */
  datatype Cpu = Cpu(worker: nat, source: nat)

  /** A batch's block rows as a one-column table. */
  function BlockTable(b: Batch): Table {
    Table([Some(b.addresses)], [], 0, 0, b.blockSequences)
  }

  function TableOf(b: Batch, signal: Signal): Option<Table> {
    match signal
    case Blocks => if b.addresses == [] then None else Some(BlockTable(b))
    case Registers => b.registers
    case Memory => b.memory
    case Context => b.context
  }

  /** How many columns each table has besides names, values of registers, and sequences. */
  function ColumnCount(signal: Signal): nat {
    match signal case Blocks => 1 case Registers => 4 case Memory => 9 case Context => 8
  }

  /** A CPU batch as the decoder builds it. */
  ghost predicate Decoded(b: Batch) {
    && b.source.Some? && b.first.Some?
    && forall signal :: TableOf(b, signal).Some? ==>
         Formed(TableOf(b, signal).value, signal == Registers) &&
           |TableOf(b, signal).value.columns| == ColumnCount(signal)
  }

  function CpuOf(b: Batch): Cpu
    requires b.source.Some?
  {
    Cpu(b.worker, b.source.value)
  }

  /** A batch's rows of one signal. */
  ghost function RowsOf(b: Batch, signal: Signal): seq<Row>
    requires Decoded(b)
  {
    match TableOf(b, signal)
    case None => []
    case Some(t) => TableRows(b.first.value, t, signal == Registers)
  }

  ghost predicate AllDecoded(bs: seq<Batch>) {
    forall i :: 0 <= i < |bs| ==> Decoded(bs[i])
  }

  ghost function RowsOfAll(bs: seq<Batch>, signal: Signal): seq<Row>
    requires AllDecoded(bs)
  {
    if bs == [] then [] else RowsOfAll(bs[..|bs| - 1], signal) + RowsOf(bs[|bs| - 1], signal)
  }

  // ---------------------------------------------------------------- merging

  /** The batches that have the table, with their first sequence numbers. */
  function PartsOf(bs: seq<Batch>, signal: Signal): (parts: seq<Part>)
    requires forall i :: 0 <= i < |bs| ==> bs[i].first.Some?
  {
    if bs == [] then []
    else
      var last := bs[|bs| - 1];
      PartsOf(bs[..|bs| - 1], signal) +
      match TableOf(last, signal) case None => [] case Some(t) => [Part(last.first.value, t)]
  }

  lemma {:induction false} PartsFormed(bs: seq<Batch>, signal: Signal)
    requires AllDecoded(bs)
    ensures var parts := PartsOf(bs, signal);
      && (forall i :: 0 <= i < |parts| ==>
            Formed(parts[i].table, signal == Registers) && |parts[i].table.columns| == ColumnCount(signal))
      && (parts != [] ==> Parts(parts, signal == Registers))
      && ConcatRows(parts, signal == Registers) == RowsOfAll(bs, signal)
  {
    hide TableRows, Formed, Decoded, ConcatRows;
    if bs == [] {
      NoParts(signal == Registers);
    } else {
      var front, last := bs[..|bs| - 1], bs[|bs| - 1];
      PartsFormed(front, signal);
      AllFirst(bs);
      DecodedTable(last, signal);
      var t, parts := TableOf(last, signal), PartsOf(front, signal);
      if t.Some? {
        PartsLast(parts, Part(last.first.value, t.value), signal == Registers);
      } else {
        assert parts + [] == parts;
      }
    }
  }

  lemma AllFirst(bs: seq<Batch>)
    requires AllDecoded(bs)
    ensures forall i :: 0 <= i < |bs| ==> bs[i].first.Some?
  {
    forall i | 0 <= i < |bs| ensures bs[i].first.Some? { assert Decoded(bs[i]); }
  }

  lemma NoParts(registers: bool)
    ensures ConcatRows([], registers) == []
  {
  }

  lemma DecodedTable(b: Batch, signal: Signal)
    requires Decoded(b)
    ensures b.first.Some?
    ensures TableOf(b, signal).Some? ==>
      Formed(TableOf(b, signal).value, signal == Registers) && |TableOf(b, signal).value.columns| == ColumnCount(signal)
  {
  }

  lemma PartsLast(front: seq<Part>, last: Part, registers: bool)
    requires Formed(last.table, registers) && forall i :: 0 <= i < |front| ==> Formed(front[i].table, registers)
    ensures forall i :: 0 <= i < |front + [last]| ==> Formed((front + [last])[i].table, registers)
    ensures ConcatRows(front + [last], registers) ==
      ConcatRows(front, registers) + TableRows(last.first, last.table, registers)
  {
    hide TableRows, Formed;
    assert (front + [last])[..|front|] == front;
  }

  /** Every optional column is present in all of the signal's tables or in none. */
  ghost predicate Mergeable(bs: seq<Batch>, signal: Signal)
    requires AllDecoded(bs)
  {
    PartsFormed(bs, signal);
    PartsOf(bs, signal) != [] ==> Consistent(PartsOf(bs, signal))
  }

  ghost predicate SameCpu(bs: seq<Batch>)
    requires AllDecoded(bs)
  {
    forall i :: 0 <= i < |bs| ==> CpuOf(bs[i]) == CpuOf(bs[0])
  }

  ghost function MergedSignal(bs: seq<Batch>, signal: Signal): Option<Table>
    requires AllDecoded(bs) && Mergeable(bs, signal)
  {
    PartsFormed(bs, signal);
    if PartsOf(bs, signal) == [] then None else Some(MergedTable(PartsOf(bs, signal), signal == Registers))
  }

  /** One batch for all of them; none when CPUs or optional columns disagree. */
  ghost function Merge(bs: seq<Batch>): Option<Batch>
    requires AllDecoded(bs) && bs != []
  {
    if !SameCpu(bs) || !(forall signal :: Mergeable(bs, signal)) then None
    else
      var blocks := MergedSignal(bs, Blocks);
      Some(bs[0].(addresses := if blocks.Some? && blocks.value.columns != [] && blocks.value.columns[0].Some?
                               then blocks.value.columns[0].value else bs[0].addresses,
                  blockSequences := if blocks.Some? then blocks.value.sequences else None,
                  registers := MergedSignal(bs, Registers), memory := MergedSignal(bs, Memory),
                  context := MergedSignal(bs, Context)))
  }

  /** The merge of decoded batches is a decoded batch of the same CPU with exactly their rows, in order. */
  lemma MergeRows(bs: seq<Batch>)
    requires AllDecoded(bs) && bs != [] && Merge(bs).Some?
    ensures var m := Merge(bs).value;
      Decoded(m) && CpuOf(m) == CpuOf(bs[0]) && forall signal :: RowsOf(m, signal) == RowsOfAll(bs, signal)
  {
    hide Formed, TableRows, MergedTable, ConcatRows, Consistent, PartsOf;
    var m := Merge(bs).value;
    assert Decoded(bs[0]);
    forall signal ensures var t := TableOf(m, signal);
      && (t.Some? ==> Formed(t.value, signal == Registers) && |t.value.columns| == ColumnCount(signal))
      && (t.Some? ==> TableRows(m.first.value, t.value, signal == Registers) == RowsOfAll(bs, signal))
      && (t.None? ==> RowsOfAll(bs, signal) == [])
    {
      if signal == Blocks { MergedBlocks(bs, m); } else { MergedRows(bs, signal, m.first.value); }
    }
  }

  lemma MergedRows(bs: seq<Batch>, signal: Signal, first: nat)
    requires AllDecoded(bs) && Mergeable(bs, signal)
    ensures var t := MergedSignal(bs, signal);
      && (t.Some? ==>
            && Formed(t.value, signal == Registers) && |t.value.columns| == ColumnCount(signal)
            && TableRows(first, t.value, signal == Registers) == RowsOfAll(bs, signal) && t.value.sequences.Some?)
      && (t.None? ==> RowsOfAll(bs, signal) == [])
  {
    hide Formed, TableRows, PartsOf;
    PartsFormed(bs, signal);
    if PartsOf(bs, signal) != [] {
      MergeKeepsRows(PartsOf(bs, signal), signal == Registers, first);
      MergedSize(PartsOf(bs, signal), signal == Registers);
    }
  }

  lemma MergedBlocks(bs: seq<Batch>, m: Batch)
    requires AllDecoded(bs) && bs != [] && Mergeable(bs, Blocks)
    requires var blocks := MergedSignal(bs, Blocks);
      && m.addresses == (if blocks.Some? && blocks.value.columns != [] && blocks.value.columns[0].Some?
                         then blocks.value.columns[0].value else bs[0].addresses)
      && m.blockSequences == (if blocks.Some? then blocks.value.sequences else None) && m.first.Some?
    ensures var t := TableOf(m, Blocks);
      && (t.Some? ==> Formed(t.value, false) && |t.value.columns| == 1
                      && TableRows(m.first.value, t.value, false) == RowsOfAll(bs, Blocks))
      && (t.None? ==> RowsOfAll(bs, Blocks) == [])
  {
    var blocks := MergedSignal(bs, Blocks);
    MergedRows(bs, Blocks, m.first.value);
    if blocks.None? {
      NoBlocks(bs);
    } else {
      var b := blocks.value;
      assert b.columns == [Some(m.addresses)];
      assert BlockTable(m).columns == b.columns;
      SameTable(m.first.value, b, BlockTable(m));
    }
  }

  lemma SameTable(first: nat, a: Table, b: Table)
    requires Formed(a, false) && a.columns == b.columns && a.sequences == b.sequences
    ensures Formed(b, false) && TableRows(first, a, false) == TableRows(first, b, false)
    ensures |a.columns[0].value| == 0 ==> TableRows(first, a, false) == []
  {
  }

  lemma {:induction false} NoBlocks(bs: seq<Batch>)
    requires AllDecoded(bs) && PartsOf(bs, Blocks) == []
    ensures forall i :: 0 <= i < |bs| ==> bs[i].addresses == []
  {
    if bs != [] { NoBlocks(bs[..|bs| - 1]); }
  }
}
