/** The decoder's single pass over a mixed payload, gathering one table per kind. */
module MixedDecoder {
  import opened Words
  import opened Wire
  import opened Validator
  import opened ValidatorRuns
  import opened RowBatches
  import opened MixedTables
  import opened BatchRuns

  /** Extends a table's sequence numbers, one per row of the run. */
  method AddSequences(sequences: seq<nat>, first: nat, count: nat) returns (r: seq<nat>)
    ensures r == sequences + Range(first, count)
  {
    r := sequences;
    for row := 0 to count
      invariant r == sequences + Range(first, row)
    {
      r := r + [first + row];
      assert Range(first, row + 1) == Range(first, row) + [first + row];
    }
  }

  /** The table a run belongs to; 4 when it belongs to none. */
  method TableIndex(kind: Kind) returns (k: nat)
    ensures k <= |KINDS| && (k < |KINDS| <==> RunKind(kind))
    ensures k < |KINDS| ==> KINDS[k] == kind
  {
    k := 0;
    while k < |KINDS| && KINDS[k] != kind
      invariant k <= |KINDS| && forall i :: 0 <= i < k ==> KINDS[i] != kind
    {
      k := k + 1;
    }
    if k == |KINDS| {
      assert KINDS[0] != kind && KINDS[1] != kind && KINDS[2] != kind && KINDS[3] != kind;
    }
  }

  /** The tables hold what the runs read so far contribute. */
  ghost predicate Gathered(first: nat, tables: seq<Table>, done: seq<Run>) {
    |tables| == |KINDS| && forall k :: 0 <= k < |KINDS| ==> tables[k] == Tabulated(first, done, KINDS[k])
  }

  lemma GatherRun(first: nat, tables: seq<Table>, done: seq<Run>, run: Run, k: nat)
    requires Gathered(first, tables, done) && k < |KINDS| && KINDS[k] == run.kind
    ensures Gathered(first, tables[k := Table(tables[k].data + run.data,
                       tables[k].sequences + Range(first + RowTotal(done), run.rows))], done + [run])
  {
    hide Tabulated, RowTotal;
    forall i | 0 <= i < |KINDS| ensures i == k || KINDS[i] != run.kind {}
    TabulatedAppend(first, done, run, KINDS[0]);
    TabulatedAppend(first, done, run, KINDS[1]);
    TabulatedAppend(first, done, run, KINDS[2]);
    TabulatedAppend(first, done, run, KINDS[3]);
  }

  /** Tables never outgrow the payload and the row count. */
  lemma {:induction false} TableBounds(first: nat, done: seq<Run>, kind: Kind)
    ensures |Tabulated(first, done, kind).sequences| <= RowTotal(done)
    ensures |Tabulated(first, done, kind).data| + 8 * |done| <= |RunsBytes(done)|
  {
    if done != [] { TableBounds(first, done[..|done| - 1], kind); }
  }

  /** Where a validated payload's pass stands: the runs before and after `offset`. */
  ghost predicate Reading(bytes: seq<byte>, count: nat, runs: seq<Run>, i: nat, offset: nat, rows: nat) {
    && i <= |runs| && offset <= |bytes| && rows <= count
    && offset == |RunsBytes(runs[..i])| && rows == RowTotal(runs[..i])
    && RunsAt(bytes, offset, count - rows) == Some(runs[i..])
  }

  lemma NextRun(bytes: seq<byte>, count: nat, runs: seq<Run>, i: nat, offset: nat, rows: nat)
    requires Reading(bytes, count, runs, i, offset, rows) && offset < |bytes|
    ensures i < |runs| && offset + 8 + |runs[i].data| <= |bytes| && RunKind(runs[i].kind)
    ensures KindOf(U16(bytes, offset)) == runs[i].kind && U16(bytes, offset + 2) == runs[i].rows
    ensures U32(bytes, offset + 4) == |runs[i].data| && bytes[offset + 8..offset + 8 + |runs[i].data|] == runs[i].data
    ensures Reading(bytes, count, runs, i + 1, offset + 8 + |runs[i].data|, rows + runs[i].rows)
  {
    hide RunBytes, RunsBytes, RowTotal, KindOf, Load;
    var rest := RunsAt(bytes, offset, count - rows).value;
    assert rest[0] == runs[i] && rest[1..] == runs[i + 1..];
    assert runs[..i + 1] == runs[..i] + [runs[i]];
    AppendRuns(runs[..i], runs[i]);
    AppendTotal(runs[..i], runs[i]);
  }

  /**
   * `decode_mixed`: on a payload the validator accepted, none of the bounds
   * checks fires and each table holds exactly the rows of its kind.
   */
  method DecodeMixed(h: Header, bytes: seq<byte>) returns (r: Option<seq<Table>>)
    requires |bytes| == h.detail <= MAX_PAYLOAD && h.count <= MAX_ROWS
    ensures RunsAt(bytes, 0, h.count).Some? ==>
      r.Some? && Gathered(h.sequence, r.value, RunsAt(bytes, 0, h.count).value)
  {
    hide RunsAt, Tabulated, RunsBytes, RowTotal, KindOf, Load, Gathered, Reading;
    ghost var runs, i := [], 0;
    ghost var valid := RunsAt(bytes, 0, h.count).Some?;
    if valid {
      runs := RunsAt(bytes, 0, h.count).value;
      StartReading(bytes, h.count, runs);
    }
    var tables := [Table([], []), Table([], []), Table([], []), Table([], [])];
    StartGathering(h.sequence, runs);
    var offset: nat, rows: nat := 0, 0;
    while offset < h.detail
      invariant offset <= h.detail && |tables| == |KINDS| && i <= |runs|
      invariant valid ==> Reading(bytes, h.count, runs, i, offset, rows) && Gathered(h.sequence, tables, runs[..i])
    {
      if valid {
        NextRun(bytes, h.count, runs, i, offset, rows);
      }
      if h.detail - offset < 8 {
        return None;
      }
      var kind, count, size := KindOf(U16(bytes, offset)), U16(bytes, offset + 2), U32(bytes, offset + 4);
      offset := offset + 8;
      var k := TableIndex(kind);
      if valid {
        Within(h.sequence, bytes, h.count, runs, i, offset - 8, rows, tables, k);
      }
      if k == |KINDS| || size > h.detail - offset || size > MAX_PAYLOAD - |tables[k].data| ||
         count > MAX_ROWS - |tables[k].sequences|
      {
        return None;
      }
      var sequences := AddSequences(tables[k].sequences, h.sequence + rows, count);
      var table := Table(tables[k].data + bytes[offset..offset + size], sequences);
      if valid {
        ReadTotal(bytes, h.count, runs, i, offset - 8, rows);
        GatherRun(h.sequence, tables, runs[..i], runs[i], k);
        assert runs[..i + 1] == runs[..i] + [runs[i]];
        i := i + 1;
      }
      tables := tables[k := table];
      rows := rows + count;
      offset := offset + size;
    }
    if valid {
      DoneReading(bytes, h.count, runs, i, offset, rows);
    }
    r := Some(tables);
  }

  lemma StartReading(bytes: seq<byte>, count: nat, runs: seq<Run>)
    requires RunsAt(bytes, 0, count) == Some(runs)
    ensures Reading(bytes, count, runs, 0, 0, 0)
  {
    hide RunsAt;
    NoItems();
    NoRows();
    assert runs[..0] == [] && runs[0..] == runs;
  }

  lemma StartGathering(first: nat, runs: seq<Run>)
    ensures Gathered(first, [Table([], []), Table([], []), Table([], []), Table([], [])], runs[..0])
  {
  }

  lemma ReadTotal(bytes: seq<byte>, count: nat, runs: seq<Run>, i: nat, offset: nat, rows: nat)
    requires Reading(bytes, count, runs, i, offset, rows)
    ensures i <= |runs| && RowTotal(runs[..i]) == rows
  {
  }

  /** The bounds checks hold because a table never holds more than was read. */
  lemma Within(first: nat, bytes: seq<byte>, count: nat, runs: seq<Run>, i: nat, offset: nat, rows: nat,
               tables: seq<Table>, k: nat)
    requires i < |runs| && Reading(bytes, count, runs, i, offset, rows) && count <= MAX_ROWS && |bytes| <= MAX_PAYLOAD
    requires Reading(bytes, count, runs, i + 1, offset + 8 + |runs[i].data|, rows + runs[i].rows)
    requires Gathered(first, tables, runs[..i]) && k < |KINDS|
    ensures |tables[k].data| + |runs[i].data| <= MAX_PAYLOAD && |tables[k].sequences| + runs[i].rows <= MAX_ROWS
  {
    hide RunsAt, Tabulated, RunsBytes, RowTotal;
    TableBounds(first, runs[..i], KINDS[k]);
  }

  lemma DoneReading(bytes: seq<byte>, count: nat, runs: seq<Run>, i: nat, offset: nat, rows: nat)
    requires Reading(bytes, count, runs, i, offset, rows) && offset == |bytes|
    ensures runs[..i] == runs
  {
    assert runs[i..] == [];
  }
}
