/**
Decoding a mixed frame: its runs, gathered into one table per kind that carries
the rows' bytes and their sequence numbers, and the merge of those tables by
sequence number. The round trip with the batches of `RowBatches` is proved here.
*/
module MixedTables {
  import opened Words
  import opened Wire
  import opened Validator
  import opened ValidatorRuns
  import opened RowBatches

  // ---------------------------------------------------------------- parsing runs back

  lemma {:induction false} RunSlice(runs: seq<Run>, k: nat)
    requires k < |runs|
    ensures |RunsBytes(runs[..k])| + |RunBytes(runs[k])| == |RunsBytes(runs[..k + 1])| <= |RunsBytes(runs)|
    ensures RunsBytes(runs)[|RunsBytes(runs[..k])|..|RunsBytes(runs[..k + 1])|] == RunBytes(runs[k])
  {
    hide RunBytes;
    var last := |runs| - 1;
    if k < last {
      RunSlice(runs[..last], k);
      assert runs[..last][..k] == runs[..k] && runs[..last][..k + 1] == runs[..k + 1];
    } else {
      assert runs[..k + 1] == runs;
    }
  }

  lemma {:induction false} PrefixRows(runs: seq<Run>, k: nat)
    requires k < |runs|
    ensures RowTotal(runs[..k + 1]) == RowTotal(runs[..k]) + runs[k].rows <= RowTotal(runs)
  {
    if k < |runs| - 1 {
      PrefixRows(runs[..|runs| - 1], k);
      assert runs[..|runs| - 1][..k] == runs[..k] && runs[..|runs| - 1][..k + 1] == runs[..k + 1];
    } else {
      assert runs[..k + 1] == runs;
    }
  }

  /** Runs whose header fields fit and that a frame may carry. */
  predicate Encodable(run: Run) {
    SizedRun(run) && 0 < run.rows <= MAX16 && |run.data| <= MAX32
  }

  lemma SubSlice<T>(s: seq<T>, from: nat, to: nat, i: nat, j: nat)
    requires from <= to <= |s| && i <= j <= to - from
    ensures s[from..to][i..j] == s[from + i..from + j]
  {
    forall k | 0 <= k < j - i ensures s[from..to][i..j][k] == s[from + i..from + j][k] {
      assert s[from..to][i + k] == s[from + i + k];
    }
  }

  lemma ThreeParts<T>(a: seq<T>, b: seq<T>, c: seq<T>)
    ensures (a + b + c)[..|a|] == a
    ensures (a + b + c)[|a|..|a| + |b|] == b
    ensures (a + b + c)[|a| + |b|..] == c
  {
  }

  lemma RunHeaderDecode(b: seq<byte>, at: nat, run: Run)
    requires Encodable(run) && at + 8 + |run.data| <= |b| && b[at..at + 8 + |run.data|] == RunBytes(run)
    ensures KindOf(U16(b, at)) == run.kind && U16(b, at + 2) == run.rows && U32(b, at + 4) == |run.data|
    ensures b[at + 8..at + 8 + |run.data|] == run.data
  {
    hide Load, Bytes;
    Pow256Words();
    var whole := b[at..at + 8 + |run.data|];
    var head := RunHeader(run.kind, run.rows, |run.data|);
    assert b[at..at + 8] == whole[..8] == head;
    ThreeParts(Bytes(Code(run.kind), 2), Bytes(run.rows, 2), Bytes(|run.data|, 4));
    assert b[at..at + 2] == b[at..at + 8][..2] == Bytes(Code(run.kind), 2);
    SubSlice(b, at, at + 8, 2, 4);
    assert b[at + 2..at + 4] == Bytes(run.rows, 2);
    assert b[at + 4..at + 8] == b[at..at + 8][4..] == Bytes(|run.data|, 4);
    assert b[at + 8..at + 8 + |run.data|] == whole[8..] == run.data;
    LoadStored(b, at, 2, Code(run.kind));
    LoadStored(b, at + 2, 2, run.rows);
    LoadStored(b, at + 4, 4, |run.data|);
  }

  /** Walking the encoded runs from run `k` on gives exactly the runs from `k` on. */
  lemma {:induction false} ParseRuns(runs: seq<Run>, k: nat)
    requires k <= |runs| && forall i :: 0 <= i < |runs| ==> Encodable(runs[i])
    ensures |RunsBytes(runs[..k])| <= |RunsBytes(runs)| && RowTotal(runs[..k]) <= RowTotal(runs)
    ensures RunsAt(RunsBytes(runs), |RunsBytes(runs[..k])|, RowTotal(runs) - RowTotal(runs[..k])) == Some(runs[k..])
    decreases |runs| - k
  {
    hide RunsBytes, RunBytes, RowTotal, RunsAt;
    var b := RunsBytes(runs);
    if k == |runs| {
      assert runs[..k] == runs && runs[k..] == [];
      ParseNone(b);
    } else {
      RunSlice(runs, k);
      PrefixRows(runs, k);
      ParseRuns(runs, k + 1);
      RunLength(runs[k]);
      ParseRun(b, |RunsBytes(runs[..k])|, RowTotal(runs) - RowTotal(runs[..k]), runs[k], runs[k + 1..]);
      assert runs[k..] == [runs[k]] + runs[k + 1..];
    }
  }

  lemma ParseNone(b: seq<byte>)
    ensures RunsAt(b, |b|, 0) == Some([])
  {
  }

  lemma RunLength(run: Run)
    ensures |RunBytes(run)| == 8 + |run.data|
  {
  }

  lemma ParseRun(b: seq<byte>, at: nat, rows: nat, run: Run, rest: seq<Run>)
    requires Encodable(run) && run.rows <= rows
    requires at + 8 + |run.data| <= |b| && b[at..at + 8 + |run.data|] == RunBytes(run)
    requires RunsAt(b, at + 8 + |run.data|, rows - run.rows) == Some(rest)
    ensures RunsAt(b, at, rows) == Some([run] + rest)
  {
    hide RunBytes, KindOf, Code, Load;
    RunHeaderDecode(b, at, run);
  }

  /** The runs of rows that fit are encodable, count the rows and are at most one per row. */
  lemma {:induction false} GroupedRuns(items: seq<Item>)
    requires forall i :: 0 <= i < |items| ==> Fits(true, items[i]) && UsesRuns(true, items[i].kind)
    ensures RowTotal(Grouped(items)) == |items| && |Grouped(items)| <= |items|
    ensures forall i :: 0 <= i < |Grouped(items)| ==>
      SizedRun(Grouped(items)[i]) && 0 < Grouped(items)[i].rows <= |items| &&
      8 + |Grouped(items)[i].data| <= |RunsBytes(Grouped(items))|
    ensures items != [] ==> |RunsBytes(Grouped(items))| >= 16
  {
    hide Grouped, RunsBytes, RunHeader, Fits;
    if items == [] {
      NoItems();
    } else {
      var front, last := items[..|items| - 1], items[|items| - 1];
      GroupedRuns(front);
      assert items == front + [last];
      AppendGrouped(front, last);
      LastRun(front);
      assert SizedRun(Run(last.kind, 1, last.data)) && |last.data| >= 8 by { FitsRun(last); }
      GrowRuns(Grouped(front), last);
    }
  }

  lemma FitsRun(item: Item)
    requires Fits(true, item) && UsesRuns(true, item.kind)
    ensures SizedRun(Run(item.kind, 1, item.data)) && |item.data| >= 8
  {
  }

  lemma GrowRuns(runs: seq<Run>, item: Item)
    requires SizedRun(Run(item.kind, 1, item.data)) && |item.data| >= 8
    requires forall i :: 0 <= i < |runs| ==>
      SizedRun(runs[i]) && 0 < runs[i].rows <= RowTotal(runs) && 8 + |runs[i].data| <= |RunsBytes(runs)|
    ensures var grown := AddRow(runs, item);
      && RowTotal(grown) == RowTotal(runs) + 1 && |grown| <= |runs| + 1
      && |RunsBytes(grown)| >= 16
      && forall i :: 0 <= i < |grown| ==>
           SizedRun(grown[i]) && 0 < grown[i].rows <= RowTotal(grown) && 8 + |grown[i].data| <= |RunsBytes(grown)|
  {
    hide RunHeader, RunsBytes, RowTotal;
    var grown := AddRow(runs, item);
    if runs == [] || runs[|runs| - 1].kind != item.kind {
      OpenedBytes(runs, item);
      AppendTotal(runs, Run(item.kind, 1, item.data));
    } else {
      var front, last := runs[..|runs| - 1], runs[|runs| - 1];
      assert runs == front + [last];
      PatchedBytes(runs, item);
      AppendRuns(front, last);
      AppendTotal(front, last);
      AppendTotal(front, Run(last.kind, last.rows + 1, last.data + item.data));
    }
  }

  lemma AppendTotal(runs: seq<Run>, run: Run)
    ensures RowTotal(runs + [run]) == RowTotal(runs) + run.rows
  {
    assert (runs + [run])[..|runs|] == runs;
  }

  // ---------------------------------------------------------------- tables

  /** A row under its sequence number. */
  datatype Numbered = Numbered(sequence: nat, item: Item)

  function Number(items: seq<Item>, first: nat): (ns: seq<Numbered>)
    ensures |ns| == |items|
    ensures forall i :: 0 <= i < |ns| ==> ns[i] == Numbered(first + i, items[i])
  {
    seq(|items|, i requires 0 <= i < |items| => Numbered(first + i, items[i]))
  }

  /** The rows of one kind, in order. */
  function Select(ns: seq<Numbered>, kind: Kind): (r: seq<Numbered>)
    ensures forall i :: 0 <= i < |r| ==> r[i] in ns && r[i].item.kind == kind
  {
    if ns == [] then []
    else Select(ns[..|ns| - 1], kind) + if ns[|ns| - 1].item.kind == kind then [ns[|ns| - 1]] else []
  }

  /** One decoded table: the gathered bytes and one sequence number per row. */
  datatype Table = Table(data: seq<byte>, sequences: seq<nat>)

  /** What the runs of one kind contribute, for a frame that starts at sequence `first`. */
  function Tabulated(first: nat, runs: seq<Run>, kind: Kind): Table {
    if runs == [] then Table([], [])
    else
      var front, last := runs[..|runs| - 1], runs[|runs| - 1];
      var t := Tabulated(first, front, kind);
      if last.kind != kind then t
      else Table(t.data + last.data, t.sequences + Range(first + RowTotal(front), last.rows))
  }

  function Items(ns: seq<Numbered>): (r: seq<Item>)
    ensures |r| == |ns| && forall i :: 0 <= i < |r| ==> r[i] == ns[i].item
  {
    seq(|ns|, i requires 0 <= i < |ns| => ns[i].item)
  }

  function Sequences(ns: seq<Numbered>): (r: seq<nat>)
    ensures |r| == |ns| && forall i :: 0 <= i < |r| ==> r[i] == ns[i].sequence
  {
    seq(|ns|, i requires 0 <= i < |ns| => ns[i].sequence)
  }

  function TableOf(ns: seq<Numbered>): Table {
    Table(Joined(Items(ns)), Sequences(ns))
  }

  lemma TabulatedAppend(first: nat, runs: seq<Run>, run: Run, kind: Kind)
    ensures Tabulated(first, runs + [run], kind) ==
      var t := Tabulated(first, runs, kind);
      if run.kind != kind then t
      else Table(t.data + run.data, t.sequences + Range(first + RowTotal(runs), run.rows))
  {
    assert (runs + [run])[..|runs|] == runs;
  }

  lemma SelectAppend(ns: seq<Numbered>, n: Numbered, kind: Kind)
    ensures Select(ns + [n], kind) == Select(ns, kind) + if n.item.kind == kind then [n] else []
  {
    assert (ns + [n])[..|ns|] == ns;
  }

  lemma TableOfAppend(ns: seq<Numbered>, n: Numbered)
    ensures TableOf(ns + [n]) == Table(TableOf(ns).data + n.item.data, TableOf(ns).sequences + [n.sequence])
  {
    hide Joined;
    assert Items(ns + [n]) == Items(ns) + [n.item];
    assert Sequences(ns + [n]) == Sequences(ns) + [n.sequence];
    AppendJoined(Items(ns), n.item);
  }

  /** One more row of any kind extends exactly its own table. */
  lemma AddRowTable(first: nat, runs: seq<Run>, item: Item, kind: Kind)
    ensures Tabulated(first, AddRow(runs, item), kind) ==
      var t := Tabulated(first, runs, kind);
      if item.kind != kind then t else Table(t.data + item.data, t.sequences + [first + RowTotal(runs)])
  {
    hide Tabulated, RowTotal;
    if runs == [] || runs[|runs| - 1].kind != item.kind {
      TabulatedAppend(first, runs, Run(item.kind, 1, item.data), kind);
      hide AddRow;
      assert Range(first + RowTotal(runs), 1) == [first + RowTotal(runs)];
    } else {
      PatchedTable(first, runs[..|runs| - 1], runs[|runs| - 1], item, kind);
      assert runs == runs[..|runs| - 1] + [runs[|runs| - 1]];
    }
  }

  lemma PatchedTable(first: nat, front: seq<Run>, last: Run, item: Item, kind: Kind)
    requires last.kind == item.kind
    ensures Tabulated(first, front + [Run(last.kind, last.rows + 1, last.data + item.data)], kind) ==
      var t := Tabulated(first, front + [last], kind);
      if item.kind != kind then t else Table(t.data + item.data, t.sequences + [first + RowTotal(front + [last])])
  {
    hide Tabulated, RowTotal;
    TabulatedAppend(first, front, last, kind);
    TabulatedAppend(first, front, Run(last.kind, last.rows + 1, last.data + item.data), kind);
    AppendTotal(front, last);
    var from := first + RowTotal(front);
    assert Range(from, last.rows + 1) == Range(from, last.rows) + [from + last.rows];
  }

  /** The table of each kind holds exactly the rows of that kind under their own sequence numbers. */
  lemma {:induction false} TabulatedGrouped(first: nat, items: seq<Item>, kind: Kind)
    requires forall i :: 0 <= i < |items| ==> Fits(true, items[i]) && UsesRuns(true, items[i].kind)
    ensures Tabulated(first, Grouped(items), kind) == TableOf(Select(Number(items, first), kind))
  {
    hide Fits, UsesRuns, AddRow, Grouped, RowTotal, Tabulated, TableOf, Select, Number;
    if items == [] {
      NoTable(first, kind);
    } else {
      var front, last := items[..|items| - 1], items[|items| - 1];
      assert items == front + [last];
      TabulatedGrouped(first, front, kind);
      GroupedRuns(front);
      AppendGrouped(front, last);
      AddRowTable(first, Grouped(front), last, kind);
      NumberAppend(front, last, first);
      SelectAppend(Number(front, first), Numbered(first + |front|, last), kind);
      var selected := Select(Number(front, first), kind);
      TableOfAppend(selected, Numbered(first + |front|, last));
      assert selected + [] == selected;
    }
  }

  lemma NoTable(first: nat, kind: Kind)
    ensures Tabulated(first, Grouped([]), kind) == TableOf(Select(Number([], first), kind))
  {
    assert Number([], first) == [];
  }

  lemma NumberAppend(items: seq<Item>, item: Item, first: nat)
    ensures Number(items + [item], first) == Number(items, first) + [Numbered(first + |items|, item)]
  {
  }

  // ---------------------------------------------------------------- rows of a table

  /** How far the decoder advances over the row at `at`, if its fixed part is there. */
  function RowSize(f: Features, kind: Kind, b: seq<byte>, at: nat): Option<nat> {
    match kind
    case Blocks => Some(8)
    case AddressContext => Some(CONTEXT_BYTES)
    case Memory => Some(MemoryStride(f))
    case Registers => if at + 16 <= |b| then Some(16 + U16(b, at + 12)) else None
    case _ => None
  }

  /** The bytes of `rows` rows from `at` on. */
  function SplitRows(f: Features, kind: Kind, b: seq<byte>, at: nat, rows: nat): Option<seq<Item>>
    decreases rows
  {
    if rows == 0 then (if at == |b| then Some([]) else None)
    else
      match RowSize(f, kind, b, at)
      case None => None
      case Some(size) =>
        if at + size > |b| then None
        else
          match SplitRows(f, kind, b, at + size, rows - 1)
          case None => None
          case Some(rest) => Some([Item(kind, b[at..at + size])] + rest)
  }

  /** A row whose length is the one its kind, or its own width field, announces. */
  predicate SelfSized(f: Features, item: Item) {
    RowSize(f, item.kind, item.data, 0) == Some(|item.data|)
  }

  lemma {:induction false} JoinedSlice(items: seq<Item>, k: nat)
    requires k < |items|
    ensures |Joined(items[..k])| + |items[k].data| == |Joined(items[..k + 1])| <= |Joined(items)|
    ensures Joined(items)[|Joined(items[..k])|..|Joined(items[..k + 1])|] == items[k].data
  {
    var last := |items| - 1;
    if k < last {
      JoinedSlice(items[..last], k);
      assert items[..last][..k] == items[..k] && items[..last][..k + 1] == items[..k + 1];
    } else {
      assert items[..k + 1] == items;
    }
  }

  lemma SameRowSize(f: Features, item: Item, b: seq<byte>, at: nat)
    requires SelfSized(f, item) && at + |item.data| <= |b| && b[at..at + |item.data|] == item.data
    ensures RowSize(f, item.kind, b, at) == Some(|item.data|)
  {
    hide Load;
    if item.kind == Registers {
      var row := b[at..at + |item.data|];
      SubSlice(b, at, at + |item.data|, 12, 14);
      LoadSame(b, at + 12, item.data, 12, 2);
    }
  }

  lemma {:induction false} SplitJoined(f: Features, kind: Kind, items: seq<Item>, k: nat)
    requires k <= |items|
    requires forall i :: 0 <= i < |items| ==> SelfSized(f, items[i]) && items[i].kind == kind
    ensures |Joined(items[..k])| <= |Joined(items)|
    ensures SplitRows(f, kind, Joined(items), |Joined(items[..k])|, |items| - k) == Some(items[k..])
    decreases |items| - k
  {
    hide RowSize, Joined;
    if k == |items| {
      assert items[..k] == items;
    } else {
      JoinedSlice(items, k);
      SplitJoined(f, kind, items, k + 1);
      assert SelfSized(f, items[k]);
      hide SelfSized;
      SameRowSize(f, items[k], Joined(items), |Joined(items[..k])|);
      assert items[k..] == [items[k]] + items[k + 1..];
    }
  }

  /** A table's rows under their sequence numbers. */
  function TableRows(f: Features, kind: Kind, t: Table): Option<seq<Numbered>> {
    match SplitRows(f, kind, t.data, 0, |t.sequences|)
    case None => None
    case Some(items) =>
      if |items| != |t.sequences| then None
      else Some(seq(|items|, i requires 0 <= i < |items| => Numbered(t.sequences[i], items[i])))
  }

  lemma TableRowsBack(f: Features, kind: Kind, ns: seq<Numbered>)
    requires forall i :: 0 <= i < |ns| ==> SelfSized(f, ns[i].item) && ns[i].item.kind == kind
    ensures TableRows(f, kind, TableOf(ns)) == Some(ns)
  {
    hide SelfSized, SplitRows;
    NoItems();
    hide Joined;
    var items := Items(ns);
    assert items[..0] == [] && items[0..] == items;
    SplitJoined(f, kind, items, 0);
    assert |Joined(items[..0])| == 0;
    var t := TableOf(ns);
    assert SplitRows(f, kind, t.data, 0, |t.sequences|) == Some(items);
    assert seq(|items|, i requires 0 <= i < |items| => Numbered(t.sequences[i], items[i])) == ns;
  }

  // ---------------------------------------------------------------- merging by sequence number

  const KINDS: seq<Kind> := [Blocks, Registers, Memory, AddressContext]

  function End(list: seq<Numbered>): nat
    requires list != []
  {
    list[|list| - 1].sequence
  }

  /** The first `n` lists' non-empty one with the latest last row; `|lists|` if all are empty. */
  function Latest(lists: seq<seq<Numbered>>, n: nat): (k: nat)
    requires n <= |lists|
    ensures k < n || k == |lists|
    ensures k < n ==> lists[k] != []
    ensures k == |lists| <==> forall i :: 0 <= i < n ==> lists[i] == []
    ensures k < n ==> forall i :: 0 <= i < n && lists[i] != [] ==>
      End(lists[i]) <= End(lists[k])
  {
    if n == 0 then |lists|
    else
      var k := Latest(lists, n - 1);
      if lists[n - 1] == [] then k
      else if k == |lists| || End(lists[k]) < End(lists[n - 1]) then n - 1
      else k
  }

  /** Merges lists that ascend in sequence number by taking the latest row last. */
  function Merge(lists: seq<seq<Numbered>>, rows: nat): seq<Numbered>
    decreases rows
  {
    if rows == 0 then []
    else
      var k := Latest(lists, |lists|);
      if k == |lists| then []
      else
        var last := |lists[k]| - 1;
        Merge(lists[k := lists[k][..last]], rows - 1) + [lists[k][last]]
  }

  function Selections(ns: seq<Numbered>): (lists: seq<seq<Numbered>>)
    ensures |lists| == |KINDS| && forall k :: 0 <= k < |KINDS| ==> lists[k] == Select(ns, KINDS[k])
  {
    seq(|KINDS|, k requires 0 <= k < |KINDS| => Select(ns, KINDS[k]))
  }

  /** Merging the per-kind tables by sequence number undoes the split into tables. */
  lemma {:induction false} MergeSelections(items: seq<Item>, first: nat)
    requires forall i :: 0 <= i < |items| ==> RunKind(items[i].kind)
    ensures Merge(Selections(Number(items, first)), |items|) == Number(items, first)
    decreases |items|
  {
    hide Select, Number, Merge, Selections, Latest, KindIndex;
    if items == [] {
      NothingToMerge(Selections(Number(items, first)));
    } else {
      var front, last := items[..|items| - 1], items[|items| - 1];
      assert items == front + [last];
      MergeSelections(front, first);
      NumberAppend(front, last, first);
      LastMerged(Number(front, first), Numbered(first + |front|, last), |items|);
    }
  }

  /** A row later than all others is what the merge takes last. */
  lemma LastMerged(before: seq<Numbered>, n: Numbered, rows: nat)
    requires rows > 0 && RunKind(n.item.kind)
    requires forall i :: 0 <= i < |before| ==> before[i].sequence < n.sequence
    ensures Merge(Selections(before + [n]), rows) == Merge(Selections(before), rows - 1) + [n]
  {
    hide Select, Merge, Latest, KindIndex;
    var k := KindIndex(n.item.kind);
    LatestSelection(before, n, k);
    var lists := Selections(before + [n]);
    MergeStep(lists, rows, k);
    assert lists[k][..|lists[k]| - 1] == Select(before, KINDS[k]);
    assert lists[k := Select(before, KINDS[k])] == Selections(before);
  }

  function KindIndex(kind: Kind): (k: nat)
    requires RunKind(kind)
    ensures k < |KINDS| && KINDS[k] == kind && forall j :: 0 <= j < |KINDS| && j != k ==> KINDS[j] != kind
  {
    if kind == Blocks then 0 else if kind == Registers then 1 else if kind == Memory then 2 else 3
  }

  lemma NothingToMerge(lists: seq<seq<Numbered>>)
    ensures Merge(lists, 0) == []
  {
  }

  lemma MergeStep(lists: seq<seq<Numbered>>, rows: nat, k: nat)
    requires rows > 0 && k < |lists| && Latest(lists, |lists|) == k
    ensures lists[k] != []
    ensures Merge(lists, rows) == Merge(lists[k := lists[k][..|lists[k]| - 1]], rows - 1) + [lists[k][|lists[k]| - 1]]
  {
  }

  /** The last row is the last of its kind's list, and later than the end of every other list. */
  lemma {:induction false} LatestSelection(before: seq<Numbered>, n: Numbered, k: nat)
    requires k < |KINDS| && KINDS[k] == n.item.kind
    requires forall j :: 0 <= j < |KINDS| && j != k ==> KINDS[j] != n.item.kind
    requires forall i :: 0 <= i < |before| ==> before[i].sequence < n.sequence
    ensures Latest(Selections(before + [n]), |KINDS|) == k
    ensures Select(before + [n], KINDS[k]) == Select(before, KINDS[k]) + [n]
    ensures forall j :: 0 <= j < |KINDS| && j != k ==> Select(before + [n], KINDS[j]) == Select(before, KINDS[j])
  {
    hide Select, Latest;
    var lists := Selections(before + [n]);
    forall j | 0 <= j < |KINDS|
      ensures lists[j] == Select(before, KINDS[j]) + if j == k then [n] else []
    {
      SelectAppend(before, n, KINDS[j]);
    }
    forall j | 0 <= j < |KINDS| && j != k && lists[j] != []
      ensures End(lists[j]) < n.sequence
    {
      assert lists[j] == Select(before, KINDS[j]);
      assert lists[j][|lists[j]| - 1] in before;
    }
  }
}
