/**
Decoded batches as rows and columns, and what it means to merge consecutive
batches of one CPU: every table's rows in order under their own sequence numbers.
*/
module Batches {
  import opened Words

  /** An optional tensor column. */
  type Column = Option<seq<nat>>

  /**
   * One signal table. Column 0 is the program counter. A register table also has
   * value bytes, padded to a common width; its column 2 gives each row's own width.
   */
  datatype Table = Table(columns: seq<Column>, values: seq<seq<byte>>, width: nat, names: nat, sequences: Column)

  const WIDTHS: nat := 2

  datatype Batch = Batch(
    worker: nat, source: Option<nat>, first: Option<nat>, addresses: seq<nat>, blockSequences: Column,
    registers: Option<Table>, memory: Option<Table>, context: Option<Table>, special: bool)

  /** A row as a reader sees it: sequence number, cells and its own value bytes. */
  datatype Row = Row(sequence: nat, cells: seq<Option<nat>>, bytes: seq<byte>)

  function Count(t: Table): nat
    requires t.columns != [] && t.columns[0].Some?
  {
    |t.columns[0].value|
  }

  /** Every present column has one entry per row; register rows carry their width within the padding. */
  ghost predicate Formed(t: Table, registers: bool) {
    && t.columns != [] && t.columns[0].Some?
    && (forall c :: 0 <= c < |t.columns| && t.columns[c].Some? ==> |t.columns[c].value| == Count(t))
    && (t.sequences.Some? ==> |t.sequences.value| == Count(t))
    && (registers ==>
          && |t.values| == Count(t) && |t.columns| > WIDTHS && t.columns[WIDTHS].Some?
          && forall i :: 0 <= i < |t.values| ==> |t.values[i]| == t.width && t.columns[WIDTHS].value[i] <= t.width)
  }

  /** Consecutive numbers from `first`: what a batch without its own sequence column stands for. */
  function Dense(first: nat, count: nat): (s: seq<nat>)
    ensures |s| == count
  {
    seq(count, i requires 0 <= i < count => first + i)
  }

  function RowSequences(first: nat, t: Table): seq<nat>
    requires t.columns != [] && t.columns[0].Some?
  {
    if t.sequences.Some? then t.sequences.value else Dense(first, Count(t))
  }

  // ---------------------------------------------------------------- rows

  function Cell(column: Column, i: nat): Option<nat>
    requires column.Some? ==> i < |column.value|
  {
    if column.Some? then Some(column.value[i]) else None
  }

  function Cells(columns: seq<Column>, i: nat): seq<Option<nat>>
    requires forall c :: 0 <= c < |columns| && columns[c].Some? ==> i < |columns[c].value|
  {
    seq(|columns|, c requires 0 <= c < |columns| => Cell(columns[c], i))
  }

  /** The bytes of a register row that its width selects. */
  function OwnBytes(columns: seq<Column>, values: seq<seq<byte>>, registers: bool, i: nat): seq<byte>
    requires registers ==> |columns| > WIDTHS && columns[WIDTHS].Some? && i < |columns[WIDTHS].value|
    requires registers ==> i < |values| && columns[WIDTHS].value[i] <= |values[i]|
  {
    if registers then values[i][..columns[WIDTHS].value[i]] else []
  }

  /** Columns, values and sequence numbers that describe `n` rows. */
  ghost predicate Aligned(columns: seq<Column>, values: seq<seq<byte>>, sequences: seq<nat>, registers: bool, n: nat) {
    && |sequences| == n && (forall c :: 0 <= c < |columns| && columns[c].Some? ==> |columns[c].value| == n)
    && (registers ==>
          && |values| == n && |columns| > WIDTHS && columns[WIDTHS].Some?
          && forall i :: 0 <= i < n ==> columns[WIDTHS].value[i] <= |values[i]|)
  }

  ghost function Rows(columns: seq<Column>, values: seq<seq<byte>>, sequences: seq<nat>, registers: bool,
                      n: nat): (rows: seq<Row>)
    requires Aligned(columns, values, sequences, registers, n)
    ensures |rows| == n
  {
    seq(n, i requires 0 <= i < n => Row(sequences[i], Cells(columns, i), OwnBytes(columns, values, registers, i)))
  }

  /** The rows of a batch's table. */
  ghost function TableRows(first: nat, t: Table, registers: bool): seq<Row>
    requires Formed(t, registers)
  {
    Rows(t.columns, t.values, RowSequences(first, t), registers, Count(t))
  }

  /** Rows laid end to end are the rows of the columns laid end to end. */
  lemma RowsConcat(a: seq<Column>, b: seq<Column>, c: seq<Column>, av: seq<seq<byte>>, bv: seq<seq<byte>>,
                   cv: seq<seq<byte>>, 
                   sa: seq<nat>, sb: seq<nat>, registers: bool, n: nat, m: nat)
    requires Aligned(a, av, sa, registers, n) && Aligned(b, bv, sb, registers, m) && |a| == |b| == |c|
    requires forall k :: 0 <= k < |c| ==> a[k].Some? == b[k].Some? == c[k].Some?
    requires forall k :: 0 <= k < |c| && c[k].Some? ==> c[k].value == a[k].value + b[k].value
    requires registers ==> |cv| == n + m
    requires registers ==> forall i :: 0 <= i < n ==> av[i] <= cv[i]
    requires registers ==> forall i :: 0 <= i < m ==> bv[i] <= cv[n + i]
    ensures Aligned(c, cv, sa + sb, registers, n + m)
    ensures Rows(c, cv, sa + sb, registers, n + m) == Rows(a, av, sa, registers, n) + Rows(b, bv, sb, registers, m)
  {
    assert Aligned(c, cv, sa + sb, registers, n + m) by {
      if registers {
        forall i | 0 <= i < n + m ensures c[WIDTHS].value[i] <= |cv[i]| {
          if i >= n { assert bv[i - n] <= cv[n + (i - n)]; }
        }
      }
    }
    var whole := Rows(c, cv, sa + sb, registers, n + m);
    forall i | 0 <= i < n ensures whole[i] == Rows(a, av, sa, registers, n)[i] {
      assert Cells(c, i) == Cells(a, i);
    }
    forall i | 0 <= i < m ensures whole[n + i] == Rows(b, bv, sb, registers, m)[i] {
      assert Cells(c, n + i) == Cells(b, i);
    }
  }

  // ---------------------------------------------------------------- merging tables

  /** A table and the first sequence number of its batch. */
  datatype Part = Part(first: nat, table: Table)

  ghost predicate Parts(parts: seq<Part>, registers: bool) {
    && parts != [] && (forall i :: 0 <= i < |parts| ==> Formed(parts[i].table, registers))
    && (forall i :: 0 <= i < |parts| ==> |parts[i].table.columns| == |parts[0].table.columns|)
  }

  /** Present in all parts or in none. */
  predicate Uniform(parts: seq<Part>, c: nat)
    requires forall i :: 0 <= i < |parts| ==> c < |parts[i].table.columns|
  {
    || (forall i :: 0 <= i < |parts| ==> parts[i].table.columns[c].Some?)
    || (forall i :: 0 <= i < |parts| ==> parts[i].table.columns[c].None?)
  }

  ghost predicate Consistent(parts: seq<Part>)
    requires parts != [] && forall i :: 0 <= i < |parts| ==> |parts[i].table.columns| == |parts[0].table.columns|
  {
    forall c :: 0 <= c < |parts[0].table.columns| ==> Uniform(parts, c)
  }

  function ConcatColumn(parts: seq<Part>, c: nat): seq<nat>
    requires forall i :: 0 <= i < |parts| ==> c < |parts[i].table.columns| && parts[i].table.columns[c].Some?
  {
    if parts == [] then []
    else ConcatColumn(parts[..|parts| - 1], c) + parts[|parts| - 1].table.columns[c].value
  }

  function MergedColumn(parts: seq<Part>, c: nat): Column
    requires parts != [] && (forall i :: 0 <= i < |parts| ==> c < |parts[i].table.columns|) && Uniform(parts, c)
  {
    if parts[0].table.columns[c].None? then None else Some(ConcatColumn(parts, c))
  }

  function ConcatSequences(parts: seq<Part>): seq<nat>
    requires forall i :: 0 <= i < |parts| ==> parts[i].table.columns != [] && parts[i].table.columns[0].Some?
  {
    if parts == [] then []
    else ConcatSequences(parts[..|parts| - 1]) + RowSequences(parts[|parts| - 1].first, parts[|parts| - 1].table)
  }

  function MaxWidth(parts: seq<Part>): (w: nat)
    ensures forall i :: 0 <= i < |parts| ==> parts[i].table.width <= w
  {
    if parts == [] then 0
    else
      var w := MaxWidth(parts[..|parts| - 1]);
      if w < parts[|parts| - 1].table.width then parts[|parts| - 1].table.width else w
  }

  function Pad(row: seq<byte>, width: nat): seq<byte> {
    if |row| < width then row + seq(width - |row|, _ => 0) else row
  }

  function PadAll(rows: seq<seq<byte>>, width: nat): (r: seq<seq<byte>>)
    ensures |r| == |rows|
  {
    seq(|rows|, i requires 0 <= i < |rows| => Pad(rows[i], width))
  }

  function ConcatValues(parts: seq<Part>, width: nat): seq<seq<byte>> {
    if parts == [] then []
    else ConcatValues(parts[..|parts| - 1], width) + PadAll(parts[|parts| - 1].table.values, width)
  }

  /** The merged table: whole columns, padded values, the latest names, explicit sequences. */
  ghost function MergedTable(parts: seq<Part>, registers: bool): (t: Table)
    requires Parts(parts, registers) && Consistent(parts)
  {
    var columns := |parts[0].table.columns|;
    Table(seq(columns, c requires 0 <= c < columns => MergedColumn(parts, c)),
          if registers then ConcatValues(parts, MaxWidth(parts)) else parts[|parts| - 1].table.values,
          if registers then MaxWidth(parts) else parts[|parts| - 1].table.width,
          parts[|parts| - 1].table.names, Some(ConcatSequences(parts)))
  }

  ghost function ConcatRows(parts: seq<Part>, registers: bool): seq<Row>
    requires forall i :: 0 <= i < |parts| ==> Formed(parts[i].table, registers)
  {
    if parts == [] then []
    else ConcatRows(parts[..|parts| - 1], registers)
         + TableRows(parts[|parts| - 1].first, parts[|parts| - 1].table, registers)
  }

  /** The merged columns of the parts so far, padded to any sufficient width, describe the parts' rows. */
  ghost predicate Describes(parts: seq<Part>, registers: bool, width: nat, n: nat)
    requires Parts(parts, registers) && Consistent(parts)
  {
    var columns := MergedTable(parts, registers).columns;
    && Aligned(columns, ConcatValues(parts, width), ConcatSequences(parts), registers, n)
    && Rows(columns, ConcatValues(parts, width), ConcatSequences(parts), registers, n) == ConcatRows(parts, registers)
  }

  lemma FrontParts(parts: seq<Part>, registers: bool)
    requires Parts(parts, registers) && Consistent(parts) && |parts| > 1
    ensures Parts(parts[..|parts| - 1], registers) && Consistent(parts[..|parts| - 1])
    ensures forall c :: 0 <= c < |parts[0].table.columns| ==>
      parts[|parts| - 1].table.columns[c].Some? == parts[0].table.columns[c].Some?
  {
    var front := parts[..|parts| - 1];
    assert front[0] == parts[0];
    forall c | 0 <= c < |front[0].table.columns| ensures Uniform(front, c) { assert Uniform(parts, c); }
    forall c | 0 <= c < |parts[0].table.columns|
      ensures parts[|parts| - 1].table.columns[c].Some? == parts[0].table.columns[c].Some?
    {
      assert Uniform(parts, c);
    }
  }

  lemma PadPrefix(row: seq<byte>, width: nat)
    ensures row <= Pad(row, width)
  {
  }

  lemma {:induction false} ColumnAppend(parts: seq<Part>, c: nat)
    requires parts != []
    requires forall i :: 0 <= i < |parts| ==> c < |parts[i].table.columns| && parts[i].table.columns[c].Some?
    ensures ConcatColumn(parts, c) == ConcatColumn(parts[..|parts| - 1], c) + parts[|parts| - 1].table.columns[c].value
  {
  }

  lemma OneColumn(parts: seq<Part>, c: nat)
    requires |parts| == 1 && c < |parts[0].table.columns| && parts[0].table.columns[c].Some?
    ensures ConcatColumn(parts, c) == parts[0].table.columns[c].value
  {
    ColumnAppend(parts, c);
    assert parts[..0] == [];
    assert [] + parts[0].table.columns[c].value == parts[0].table.columns[c].value;
  }

  /** One part: its own rows, whatever the padding. */
  lemma OnePart(parts: seq<Part>, registers: bool, width: nat)
    requires |parts| == 1 && Parts(parts, registers) && Consistent(parts)
    ensures Describes(parts, registers, width, Count(parts[0].table))
  {
    var t := parts[0].table;
    var columns := MergedTable(parts, registers).columns;
    assert parts[..0] == [];
    forall c | 0 <= c < |columns| ensures columns[c] == t.columns[c] {
      if t.columns[c].Some? {
        assert Uniform(parts, c);
        OneColumn(parts, c);
      }
    }
    assert columns == t.columns;
    assert ConcatSequences(parts) == RowSequences(parts[0].first, t);
    assert ConcatValues(parts, width) == PadAll(t.values, width);
    SameRows(t, width, RowSequences(parts[0].first, t), registers);
    assert ConcatRows(parts, registers) == TableRows(parts[0].first, t, registers);
  }

  lemma SameRows(t: Table, width: nat, sequences: seq<nat>, registers: bool)
    requires Formed(t, registers) && |sequences| == Count(t)
    ensures Aligned(t.columns, PadAll(t.values, width), sequences, registers, Count(t))
    ensures Aligned(t.columns, t.values, sequences, registers, Count(t))
    ensures Rows(t.columns, PadAll(t.values, width), sequences, registers, Count(t)) ==
      Rows(t.columns, t.values, sequences, registers, Count(t))
  {
    if registers {
      forall i | 0 <= i < Count(t)
        ensures OwnBytes(t.columns, PadAll(t.values, width), true, i) == OwnBytes(t.columns, t.values, true, i)
      {
        PadPrefix(t.values[i], width);
      }
    }
  }

  /** The columns of the merge are those of its front followed by the last part's. */
  lemma ColumnsAppend(parts: seq<Part>, registers: bool, c: nat)
    requires Parts(parts, registers) && Consistent(parts) && |parts| > 1 && c < |parts[0].table.columns|
    requires Parts(parts[..|parts| - 1], registers) && Consistent(parts[..|parts| - 1])
    ensures var whole, front, last := MergedTable(parts, registers).columns[c],
                                      MergedTable(parts[..|parts| - 1], registers).columns[c],
                                      parts[|parts| - 1].table.columns[c];
      && whole.Some? == front.Some? == last.Some?
      && (whole.Some? ==> whole.value == front.value + last.value)
  {
    hide ConcatColumn;
    assert Uniform(parts, c);
    assert Uniform(parts[..|parts| - 1], c);
    if parts[0].table.columns[c].Some? { ColumnAppend(parts, c); }
  }

  lemma {:induction false} MergeDescribes(parts: seq<Part>, registers: bool, width: nat) returns (n: nat)
    requires Parts(parts, registers) && Consistent(parts)
    ensures Describes(parts, registers, width, n)
  {
    if |parts| == 1 {
      OnePart(parts, registers, width);
      n := Count(parts[0].table);
    } else {
      FrontParts(parts, registers);
      var front, last := parts[..|parts| - 1], parts[|parts| - 1];
      var k := MergeDescribes(front, registers, width);
      n := k + Count(last.table);
      AppendDescribes(parts, registers, width, k);
    }
  }

  lemma AppendDescribes(parts: seq<Part>, registers: bool, width: nat, k: nat)
    requires Parts(parts, registers) && Consistent(parts) && |parts| > 1
    requires Parts(parts[..|parts| - 1], registers) && Consistent(parts[..|parts| - 1])
    requires Describes(parts[..|parts| - 1], registers, width, k)
    ensures Describes(parts, registers, width, k + Count(parts[|parts| - 1].table))
  {
    hide Rows, Cells, OwnBytes, MergedTable, ConcatColumn;
    var front, last := parts[..|parts| - 1], parts[|parts| - 1];
    var a, b, c := MergedTable(front, registers).columns, last.table.columns, MergedTable(parts, registers).columns;
    MergedSize(front, registers);
    MergedSize(parts, registers);
    forall i | 0 <= i < |c|
      ensures a[i].Some? == b[i].Some? == c[i].Some? && (c[i].Some? ==> c[i].value == a[i].value + b[i].value)
    {
      ColumnsAppend(parts, registers, i);
    }
    var sb, m := RowSequences(last.first, last.table), Count(last.table);
    SameRows(last.table, width, sb, registers);
    RowsConcat(a, b, c, ConcatValues(front, width), PadAll(last.table.values, width), ConcatValues(parts, width),
               ConcatSequences(front), sb, registers, k, m);
  }

  lemma MergedSize(parts: seq<Part>, registers: bool)
    requires Parts(parts, registers) && Consistent(parts)
    ensures |MergedTable(parts, registers).columns| == |parts[0].table.columns|
  {
  }

  /**
   * Merging succeeds on consistent parts and keeps every row: its sequence number,
   * its cells and, for registers, its own bytes whatever the padding.
   */
  lemma MergeKeepsRows(parts: seq<Part>, registers: bool, first: nat)
    requires Parts(parts, registers) && Consistent(parts)
    ensures Formed(MergedTable(parts, registers), registers)
    ensures TableRows(first, MergedTable(parts, registers), registers) == ConcatRows(parts, registers)
  {
    var t := MergedTable(parts, registers);
    var n := MergeDescribes(parts, registers, if registers then MaxWidth(parts) else 0);
    assert Uniform(parts, 0);
    assert t.columns[0].Some? && Count(t) == n;
    if registers {
      Widths(parts, MaxWidth(parts));
    } else {
      hide ConcatRows;
      IgnoresValues(t.columns, ConcatValues(parts, 0), t.values, ConcatSequences(parts), n);
    }
  }

  lemma IgnoresValues(columns: seq<Column>, a: seq<seq<byte>>, b: seq<seq<byte>>, sequences: seq<nat>, n: nat)
    requires Aligned(columns, a, sequences, false, n)
    ensures Aligned(columns, b, sequences, false, n)
    ensures Rows(columns, a, sequences, false, n) == Rows(columns, b, sequences, false, n)
  {
  }

  /** All merged value rows have the common width. */
  lemma {:induction false} Widths(parts: seq<Part>, width: nat)
    requires forall i :: 0 <= i < |parts| ==> Formed(parts[i].table, true) && parts[i].table.width <= width
    ensures forall i :: 0 <= i < |ConcatValues(parts, width)| ==> |ConcatValues(parts, width)[i]| == width
  {
    if parts != [] { Widths(parts[..|parts| - 1], width); }
  }
}
