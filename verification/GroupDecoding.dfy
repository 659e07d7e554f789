/**
Grouped decoding of context-only frames, on values: the rows each frame carries
when it is decoded on its own, and what a group of frames publishes per source.
*/
module GroupDecoding {
  import opened Words
  import opened Wire
  import opened Validator
  import opened ValidatorRuns
  import opened MixedTables

  const MAX_GROUP_FRAMES: nat := 32

  /** A decoded row: its sequence number and its column values. */
  datatype Entry = Entry(sequence: nat, values: seq<nat>)

  /** What is published for one source. */
  datatype Group = Group(source: nat, first: nat, blocks: seq<Entry>, contexts: seq<Entry>)

  function RowBytes(kind: Kind): (n: nat)
    ensures n > 0
  {
    if kind == Blocks then 8 else CONTEXT_BYTES
  }

  /** Row `r` of a run or table: one address, or the eight context columns. */
  function Values(kind: Kind, data: seq<byte>, r: nat): seq<nat>
    requires (r + 1) * RowBytes(kind) <= |data|
  {
    if kind == Blocks then [U64(data, r * 8)]
    else seq(8, c requires 0 <= c < 8 => U64(data, r * CONTEXT_BYTES + c * 8))
  }

  /** A run of block or context rows of the exact size. */
  predicate ContextRun(run: Run) {
    (run.kind == Blocks || run.kind == AddressContext) && |run.data| == run.rows * RowBytes(run.kind)
  }

  predicate ContextRuns(runs: seq<Run>) {
    forall i :: 0 <= i < |runs| ==> ContextRun(runs[i])
  }

  lemma RowFits(rows: nat, r: nat, size: nat)
    requires r < rows
    ensures (r + 1) * size <= rows * size
  {
    assert rows * size == (r + 1) * size + (rows - r - 1) * size;
  }

  function RunEntry(first: nat, run: Run, r: nat): Entry
    requires ContextRun(run) && r < run.rows
  {
    RowFits(run.rows, r, RowBytes(run.kind));
    Entry(first + r, Values(run.kind, run.data, r))
  }

  function RunEntries(first: nat, run: Run): (es: seq<Entry>)
    requires ContextRun(run)
    ensures |es| == run.rows
  {
    seq(run.rows, r requires 0 <= r < run.rows => RunEntry(first, run, r))
  }

  /** A frame's rows of one kind, under the sequence numbers their position gives them. */
  function Entries(first: nat, runs: seq<Run>, kind: Kind): seq<Entry>
    requires ContextRuns(runs)
  {
    if runs == [] then []
    else
      var front, last := runs[..|runs| - 1], runs[|runs| - 1];
      Entries(first, front, kind) + if last.kind == kind then RunEntries(first + RowTotal(front), last) else []
  }

  /** The rows of a table that the one-frame decoder built. */
  function TableEntries(t: Table, kind: Kind): (es: seq<Entry>)
    requires |t.data| == |t.sequences| * RowBytes(kind)
    ensures |es| == |t.sequences|
  {
    seq(|t.sequences|, r requires 0 <= r < |t.sequences| =>
      RowFits(|t.sequences|, r, RowBytes(kind)); Entry(t.sequences[r], Values(kind, t.data, r)))
  }

  lemma Distribute(a: nat, b: nat, size: nat)
    ensures (a + b) * size == a * size + b * size
  {
  }

  lemma ValuesPrefix(kind: Kind, a: seq<byte>, b: seq<byte>, r: nat)
    requires (r + 1) * RowBytes(kind) <= |a|
    ensures Values(kind, a + b, r) == Values(kind, a, r)
  {
    hide Load;
    if kind == Blocks {
      PrefixWord(a, b, r * 8);
    } else {
      forall c | 0 <= c < 8 ensures U64(a + b, r * CONTEXT_BYTES + c * 8) == U64(a, r * CONTEXT_BYTES + c * 8) {
        PrefixWord(a, b, r * CONTEXT_BYTES + c * 8);
      }
    }
  }

  lemma ValuesSuffix(kind: Kind, a: seq<byte>, n: nat, b: seq<byte>, r: nat)
    requires |a| == n * RowBytes(kind) && (r + 1) * RowBytes(kind) <= |b|
    ensures (n + r + 1) * RowBytes(kind) <= |a + b| && Values(kind, a + b, n + r) == Values(kind, b, r)
  {
    hide Load;
    Distribute(n, r + 1, RowBytes(kind));
    Distribute(n, r, RowBytes(kind));
    if kind == Blocks {
      SuffixWord(a, b, r * 8);
    } else {
      forall c | 0 <= c < 8
        ensures U64(a + b, (n + r) * CONTEXT_BYTES + c * 8) == U64(b, r * CONTEXT_BYTES + c * 8)
      {
        SuffixWord(a, b, r * CONTEXT_BYTES + c * 8);
      }
    }
  }

  lemma PrefixWord(a: seq<byte>, b: seq<byte>, i: nat)
    requires i + 8 <= |a|
    ensures U64(a + b, i) == U64(a, i)
  {
    hide Load;
    assert (a + b)[i..i + 8] == a[i..i + 8];
    LoadSame(a + b, i, a, i, 8);
  }

  lemma SuffixWord(a: seq<byte>, b: seq<byte>, j: nat)
    requires j + 8 <= |b|
    ensures U64(a + b, |a| + j) == U64(b, j)
  {
    hide Load;
    assert (a + b)[|a| + j..|a| + j + 8] == b[j..j + 8];
    LoadSame(a + b, |a| + j, b, j, 8);
  }

  /** The rows are exactly those of the tables a frame decodes to on its own. */
  lemma {:induction false} EntriesAreTables(first: nat, runs: seq<Run>, kind: Kind)
    requires ContextRuns(runs) && (kind == Blocks || kind == AddressContext)
    ensures var t := Tabulated(first, runs, kind);
      |t.data| == |t.sequences| * RowBytes(kind) && Entries(first, runs, kind) == TableEntries(t, kind)
  {
    hide TableEntries, RunEntries, Values, RowTotal, Range;
    if runs == [] {
      NoEntries(kind);
    } else {
      var front, last := runs[..|runs| - 1], runs[|runs| - 1];
      EntriesAreTables(first, front, kind);
      if last.kind == kind {
        TableGrows(Tabulated(first, front, kind), kind, first + RowTotal(front), last);
      } else {
        assert Entries(first, front, kind) + [] == Entries(first, front, kind);
      }
    }
  }

  lemma NoEntries(kind: Kind)
    ensures TableEntries(Table([], []), kind) == []
  {
  }

  lemma TableGrows(t: Table, kind: Kind, from: nat, run: Run)
    requires |t.data| == |t.sequences| * RowBytes(kind) && ContextRun(run) && run.kind == kind
    ensures var u := Table(t.data + run.data, t.sequences + Range(from, run.rows));
      && |u.data| == |u.sequences| * RowBytes(kind)
      && TableEntries(u, kind) == TableEntries(t, kind) + RunEntries(from, run)
  {
    hide Values;
    var n, u := |t.sequences|, Table(t.data + run.data, t.sequences + Range(from, run.rows));
    Distribute(n, run.rows, RowBytes(kind));
    var whole := TableEntries(u, kind);
    forall r | 0 <= r < n ensures whole[r] == TableEntries(t, kind)[r] {
      RowFits(n, r, RowBytes(kind));
      ValuesPrefix(kind, t.data, run.data, r);
    }
    forall r | 0 <= r < run.rows ensures whole[n + r] == RunEntries(from, run)[r] {
      RowFits(run.rows, r, RowBytes(kind));
      ValuesSuffix(kind, t.data, n, run.data, r);
    }
  }

  // ---------------------------------------------------------------- groups

  /** A mixed frame that holds only block and context rows. */
  predicate ContextFrame(f: Frame) {
    RunsAt(f.payload, 0, f.header.count).Some? && ContextRuns(RunsAt(f.payload, 0, f.header.count).value)
  }

  function FrameEntries(f: Frame, kind: Kind): seq<Entry>
    requires ContextFrame(f)
  {
    Entries(f.header.sequence, RunsAt(f.payload, 0, f.header.count).value, kind)
  }

  predicate ContextFrames(fs: seq<Frame>) {
    forall i :: 0 <= i < |fs| ==> ContextFrame(fs[i])
  }

  /** One source's rows of one kind over a list of frames, in frame order. */
  function SourceEntries(fs: seq<Frame>, source: nat, kind: Kind): seq<Entry>
    requires ContextFrames(fs)
  {
    if fs == [] then []
    else
      var last := fs[|fs| - 1];
      SourceEntries(fs[..|fs| - 1], source, kind)
      + if last.header.source == source then FrameEntries(last, kind) else []
  }

  /** The sources in the order in which they first occur. */
  function Sources(fs: seq<Frame>): seq<nat> {
    if fs == [] then []
    else
      var front, s := Sources(fs[..|fs| - 1]), fs[|fs| - 1].header.source;
      if s in front then front else front + [s]
  }

  /** The sequence number of a source's first frame. */
  function FirstSequence(fs: seq<Frame>, source: nat): nat {
    if fs == [] then 0
    else if source in Sources(fs[..|fs| - 1]) || fs[|fs| - 1].header.source != source
    then FirstSequence(fs[..|fs| - 1], source)
    else fs[|fs| - 1].header.sequence
  }

  /** What a group of frames publishes. */
  function GroupsOf(fs: seq<Frame>): (gs: seq<Group>)
    requires ContextFrames(fs)
    ensures |gs| == |Sources(fs)|
  {
    seq(|Sources(fs)|, g requires 0 <= g < |Sources(fs)| =>
      var s := Sources(fs)[g];
      Group(s, FirstSequence(fs, s), SourceEntries(fs, s, Blocks), SourceEntries(fs, s, AddressContext)))
  }

  /** The frame in a received buffer: legal header, exact length, mixed kind. */
  function Received(raw: seq<byte>): (f: Option<Frame>)
    ensures f.Some? ==> WellSized(f.value) && f.value.header.kind == Mixed && LegalHeader(f.value.header)
  {
    if |raw| < HEADER_BYTES then None
    else
      match DecodeHeader(raw[..HEADER_BYTES])
      case None => None
      case Some(h) =>
        if |raw| != HEADER_BYTES + PayloadSize(h) || h.kind != Mixed then None else Some(Frame(h, raw[HEADER_BYTES..]))
  }

  /** The longest well-received prefix of the buffers. */
  function Readable(raws: seq<seq<byte>>): (fs: seq<Frame>)
    ensures |fs| <= |raws| && (forall i :: 0 <= i < |fs| ==> Received(raws[i]) == Some(fs[i]))
    ensures |fs| < |raws| ==> Received(raws[|fs|]).None?
  {
    if raws == [] then []
    else
      var front := Readable(raws[..|raws| - 1]);
      if |front| == |raws| - 1 &&
        Received(raws[|raws| - 1]).Some? then front + [Received(raws[|raws| - 1]).value] else front
  }

  /** How many leading frames the stream accepts. */
  function Acceptable(s: State, fs: seq<Frame>): (k: nat)
    requires forall i :: 0 <= i < |fs| ==> WellSized(fs[i])
    ensures k <= |fs| && AcceptAll(s, fs[..k]).Some?
    ensures k < |fs| ==> AcceptAll(s, fs[..k + 1]).None?
    decreases |fs|
  {
    if fs == [] then 0
    else
      var front := fs[..|fs| - 1];
      var k := Acceptable(s, front);
      assert fs[..k] == front[..k] && fs[..|fs|] == fs;
      if k < |front| then
        assert fs[..k + 1] == front[..k + 1];
        k
      else if AcceptAll(s, fs).Some? then |fs| else k
  }

  /** How many leading frames hold only block and context rows. */
  function Countable(fs: seq<Frame>): (k: nat)
    ensures k <= |fs| && ContextFrames(fs[..k]) && (k < |fs| ==> !ContextFrame(fs[k]))
  {
    if fs == [] then 0
    else
      var k := Countable(fs[..|fs| - 1]);
      if k == |fs| - 1 && ContextFrame(fs[|fs| - 1]) then |fs| else k
  }

  /** How many frames of a group are published: readable, accepted and context-only, without a gap. */
  function Publishable(s: State, raws: seq<seq<byte>>): (k: nat)
    ensures k <= |Readable(raws)| && ContextFrames(Readable(raws)[..k])
  {
    var fs := Readable(raws);
    var k := Countable(fs[..Acceptable(s, fs)]);
    assert fs[..Acceptable(s, fs)][..k] == fs[..k];
    k
  }

  // ---------------------------------------------------------------- what the prefix means

  /** Rejection of one frame publishes precisely the frames before it. */
  lemma PublishedPrefix(s: State, raws: seq<seq<byte>>)
    ensures var k, fs := Publishable(s, raws), Readable(raws);
      && AcceptAll(s, fs[..k]).Some?
      && (k < |raws| ==>
            || (k == |fs| && Received(raws[k]).None?)
            || (k < |fs| && (AcceptAll(s, fs[..k + 1]).None? || !ContextFrame(fs[k]))))
  {
    hide Accept, AcceptAll, Received, Readable, Acceptable, Countable, ContextFrame;
    var fs := Readable(raws);
    var a, k := Acceptable(s, fs), Publishable(s, raws);
    AcceptedPrefix(s, fs[..a], k);
    assert fs[..a][..k] == fs[..k];
    if k < a { assert fs[..a][k] == fs[k]; }
  }

  lemma {:induction false} AcceptedPrefix(s: State, fs: seq<Frame>, k: nat)
    requires (forall i :: 0 <= i < |fs| ==> WellSized(fs[i])) && AcceptAll(s, fs).Some? && k <= |fs|
    ensures AcceptAll(s, fs[..k]).Some?
  {
    hide Accept, WellSized;
    if k == |fs| {
      assert fs[..k] == fs;
    } else {
      AcceptedPrefix(s, fs[..|fs| - 1], k);
      assert fs[..|fs| - 1][..k] == fs[..k];
    }
  }

  /** Sources are listed once each, and exactly those that occur. */
  lemma {:induction false} SourcesMeaning(fs: seq<Frame>)
    ensures forall i, j :: 0 <= i < j < |Sources(fs)| ==> Sources(fs)[i] != Sources(fs)[j]
    ensures forall s :: s in Sources(fs) <==> exists i :: 0 <= i < |fs| && fs[i].header.source == s
  {
    if fs == [] {
    } else {
      var front, last := fs[..|fs| - 1], fs[|fs| - 1];
      SourcesMeaning(front);
      forall s ensures s in Sources(fs) <==> exists i :: 0 <= i < |fs| && fs[i].header.source == s {
        if s in Sources(front) {
          var i :| 0 <= i < |front| && front[i].header.source == s;
          assert fs[i].header.source == s;
        }
        if i :| 0 <= i < |fs| && fs[i].header.source == s {
          if i < |front| { assert front[i].header.source == s; }
        }
      }
    }
  }
}
