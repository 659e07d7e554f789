/**
A vCPU's register schema: the names and widths the plugin lets through, the rows it
appends for them, and what the validator makes of those rows. They are accepted
exactly when every name is printable, which the plugin does not check.
*/
module RegisterSchemas {
  import opened Words
  import opened Wire
  import opened Validator
  import opened ValidatorRuns
  import opened RowBatches
  import opened MixedTables
  import opened RowAcceptance
  import opened RowStreams

  const NAME_BYTES: nat := 64

  /** A selected register as the emulator describes it. */
  datatype Declared = Declared(name: seq<byte>, width: nat)

  /** What `register_setup` demands of one register: a short ASCII name and a readable value. */
  predicate Admitted(d: Declared) {
    && 0 < |d.name| < NAME_BYTES && (forall i :: 0 <= i < |d.name| ==> 0 < d.name[i] <= 127)
    && 0 < d.width <= MAX_REGISTER_BYTES
  }

  /** What it demands of all of them: a bounded number, no name twice. */
  predicate Admissible(ds: seq<Declared>) {
    && |ds| <= MAX_REGISTERS && (forall i :: 0 <= i < |ds| ==> Admitted(ds[i]))
    && forall i, j :: 0 <= i < j < |ds| ==> ds[i].name != ds[j].name
  }

  /** What the validator demands of a name: visible ASCII. */
  predicate Printable(d: Declared) {
    forall i :: 0 <= i < |d.name| ==> 33 <= d.name[i] <= 126
  }

  predicate AllPrintable(ds: seq<Declared>) {
    forall i :: 0 <= i < |ds| ==> Printable(ds[i])
  }

  function Padded(name: seq<byte>): (b: seq<byte>)
    requires |name| <= NAME_BYTES
    ensures |b| == NAME_BYTES
  {
    name + seq(NAME_BYTES - |name|, _ => 0)
  }

  function SchemaRow(id: nat, d: Declared): (x: Item)
    requires |d.name| <= NAME_BYTES
    ensures x.kind == RegisterSchema && |x.data| == SCHEMA_BYTES
  {
    Item(RegisterSchema, Bytes(id, 4) + Bytes(d.width, 4) + Padded(d.name))
  }

  /** The rows of registers `from` up to `until`. */
  function SchemaRows(ds: seq<Declared>, from: nat, until: nat): (xs: seq<Item>)
    requires Admissible(ds) && from <= until <= |ds|
    ensures |xs| == until - from
    ensures forall i :: 0 <= i < |xs| ==> xs[i] == SchemaRow(from + i, ds[from + i])
  {
    seq(until - from, i requires 0 <= i < until - from => SchemaRow(from + i, ds[from + i]))
  }

  /** The validator's file after the first `n` registers. */
  function FileOf(ds: seq<Declared>, n: nat): RegisterFile
    requires Admissible(ds) && n <= |ds|
  {
    map id: nat | 0 <= id < n :: Register(ds[id].width, Padded(ds[id].name), false)
  }

  // ---------------------------------------------------------------- names

  lemma PaddedDiffers(a: seq<byte>, b: seq<byte>)
    requires 0 < |a| < NAME_BYTES && 0 < |b| < NAME_BYTES
    requires forall i :: 0 <= i < |a| ==> a[i] != 0
    requires forall i :: 0 <= i < |b| ==> b[i] != 0
    ensures Padded(a) == Padded(b) ==> a == b
  {
    if |a| < |b| {
      assert Padded(a)[|a|] != Padded(b)[|a|];
    } else if |b| < |a| {
      assert Padded(a)[|b|] != Padded(b)[|b|];
    } else {
      assert a == Padded(a)[..|a|] && b == Padded(b)[..|b|];
    }
  }

  /** A padded name is valid exactly when it is printable. */
  lemma NameDecides(b: seq<byte>, at: nat, d: Declared)
    requires Admitted(d) && at + NAME_BYTES <= |b| && b[at..at + NAME_BYTES] == Padded(d.name)
    ensures ValidName(b, at) <==> Printable(d)
  {
    NameBytes(b, at, d);
    hide Padded;
    NameEnds(b, at, |d.name|, 0);
    hide NameLength;
    if Printable(d) {
      forall i | at <= i < at + |d.name| ensures 33 <= b[i] <= 126 { assert b[i] == d.name[i - at]; }
    }
    if forall i :: at <= i < at + |d.name| ==> 33 <= b[i] <= 126 { NamePrints(b, at, d); }
  }

  lemma NameBytes(b: seq<byte>, at: nat, d: Declared)
    requires Admitted(d) && at + NAME_BYTES <= |b| && b[at..at + NAME_BYTES] == Padded(d.name)
    ensures forall i :: at <= i < at + |d.name| ==> b[i] == d.name[i - at]
    ensures forall i :: at + |d.name| <= i < at + NAME_BYTES ==> b[i] == 0
  {
    forall i | at <= i < at + NAME_BYTES ensures b[i] == if i - at < |d.name| then d.name[i - at] else 0 {
      assert b[i] == b[at..at + NAME_BYTES][i - at];
    }
  }

  lemma NamePrints(b: seq<byte>, at: nat, d: Declared)
    requires at + |d.name| <= |b| && forall i :: at <= i < at + |d.name| ==> b[i] == d.name[i - at]
    requires forall i :: at <= i < at + |d.name| ==> 33 <= b[i] <= 126
    ensures Printable(d)
  {
    forall i | 0 <= i < |d.name| ensures 33 <= d.name[i] <= 126 { assert b[at + i] == d.name[at + i - at]; }
  }

  lemma {:induction false} NameEnds(b: seq<byte>, at: nat, length: nat, k: nat)
    requires at + NAME_BYTES <= |b| && k <= length < NAME_BYTES && b[at + length] == 0
    requires forall i :: at <= i < at + length ==> b[i] != 0
    ensures NameLength(b, at, k) == length
    decreases length - k
  {
    if k == length {
    } else {
      NameEnds(b, at, length, k + 1);
    }
  }

  // ---------------------------------------------------------------- one frame

  lemma RowFields(b: seq<byte>, at: nat, id: nat, d: Declared)
    requires Admitted(d) && id < MAX_REGISTERS && at + SCHEMA_BYTES <= |b|
    requires b[at..at + SCHEMA_BYTES] == SchemaRow(id, d).data
    ensures U32(b, at) == id && U32(b, at + 4) == d.width && b[at + 8..at + 72] == Padded(d.name)
  {
    hide Load, Bytes, Padded;
    var row := b[at..at + SCHEMA_BYTES];
    assert b[at..at + 4] == row[0..4] == Bytes(id, 4);
    assert b[at + 4..at + 8] == row[4..8] == Bytes(d.width, 4);
    assert b[at + 8..at + 72] == row[8..72] == Padded(d.name);
    Pow256Words();
    LoadStored(b, at, 4, id);
    LoadStored(b, at + 4, 4, d.width);
  }

  /** One more register in the file: new under its number and its name. */
  lemma NewRegister(ds: seq<Declared>, n: nat)
    requires Admissible(ds) && n < |ds|
    ensures n !in FileOf(ds, n)
    ensures forall other :: other in FileOf(ds, n) ==> FileOf(ds, n)[other].name != Padded(ds[n].name)
    ensures FileOf(ds, n)[n := Register(ds[n].width, Padded(ds[n].name), false)] == FileOf(ds, n + 1)
  {
    hide Padded;
    assert Admitted(ds[n]);
    forall other | other in FileOf(ds, n) ensures FileOf(ds, n)[other].name != Padded(ds[n].name) {
      assert Admitted(ds[other]);
      PaddedDiffers(ds[other].name, ds[n].name);
    }
  }

  ghost predicate RowsIn(b: seq<byte>, ds: seq<Declared>, from: nat, until: nat)
    requires Admissible(ds) && from <= until <= |ds|
  {
    |b| == (until - from) * SCHEMA_BYTES &&
    forall i :: 0 <= i < until - from ==>
      b[i * SCHEMA_BYTES..i * SCHEMA_BYTES + SCHEMA_BYTES] == SchemaRow(from + i, ds[from + i]).data
  }

  lemma {:induction false} DeclareDecides(b: seq<byte>, ds: seq<Declared>, from: nat, row: nat, until: nat)
    requires Admissible(ds) && from + row <= until <= |ds| && RowsIn(b, ds, from, until)
    ensures Declare(FileOf(ds, from + row), b, row, until - from) ==
      if AllPrintable(ds[from + row..until]) then Some(FileOf(ds, until)) else None
    decreases until - row
  {
    hide Declare, FileOf, RowsIn, Admissible, AllPrintable;
    RowsSize(b, ds, from, until);
    if from + row == until {
      AllDeclared(FileOf(ds, until), b, row);
      assert ds[from + row..until] == [];
      assert AllPrintable([]) by { NonePrinted(); }
    } else {
      var d, rest := ds[from + row], ds[from + row + 1..until];
      DeclareRow(b, ds, from, row, until);
      DeclareDecides(b, ds, from, row + 1, until);
      assert ds[from + row..until] == [d] + rest;
      FirstPrintable(d, rest);
    }
  }

  lemma AllDeclared(regs: RegisterFile, b: seq<byte>, row: nat)
    requires row * SCHEMA_BYTES <= |b|
    ensures Declare(regs, b, row, row) == Some(regs)
  {
  }

  lemma NonePrinted()
    ensures AllPrintable([])
  {
  }

  lemma DeclareRow(b: seq<byte>, ds: seq<Declared>, from: nat, row: nat, until: nat)
    requires Admissible(ds) && from + row < until <= |ds| && RowsIn(b, ds, from, until)
    ensures |b| == (until - from) * SCHEMA_BYTES
    ensures Declare(FileOf(ds, from + row), b, row, until - from) ==
      if Printable(ds[from + row]) then Declare(FileOf(ds, from + row + 1), b, row + 1, until - from) else None
  {
    hide FileOf, Load, Padded, SchemaRow, ValidName, Printable, Admitted;
    var at, n := row * SCHEMA_BYTES, from + row;
    var d := ds[n];
    assert Admitted(d);
    Widths(d);
    RowFields(b, at, n, d);
    NameDecides(b, at + 8, d);
    NewRegister(ds, n);
    hide RowsIn, Admissible;
  }

  lemma Widths(d: Declared)
    requires Admitted(d)
    ensures 0 < d.width <= MAX_REGISTER_BYTES && 0 < |d.name| < NAME_BYTES
  {
  }

  lemma FirstPrintable(d: Declared, ds: seq<Declared>)
    ensures AllPrintable([d] + ds) <==> Printable(d) && AllPrintable(ds)
  {
    hide Printable;
    if AllPrintable([d] + ds) {
      assert ([d] + ds)[0] == d;
      forall i | 0 <= i < |ds| ensures Printable(ds[i]) { assert ([d] + ds)[i + 1] == ds[i]; }
    }
  }

  lemma RowsJoined(ds: seq<Declared>, from: nat, until: nat)
    requires Admissible(ds) && from <= until <= |ds|
    ensures RowsIn(Joined(SchemaRows(ds, from, until)), ds, from, until)
  {
    hide Joined, SchemaRow;
    var xs := SchemaRows(ds, from, until);
    forall i | 0 <= i < |xs| ensures |xs[i].data| == SCHEMA_BYTES { RowSize(ds, from + i); }
    EqualSizes(xs, SCHEMA_BYTES);
    forall i | 0 <= i < until - from
      ensures i * SCHEMA_BYTES + SCHEMA_BYTES <= |Joined(xs)|
      ensures Joined(xs)[i * SCHEMA_BYTES..i * SCHEMA_BYTES + SCHEMA_BYTES] == SchemaRow(from + i, ds[from + i]).data
    {
      JoinedSlice(xs, i);
      EqualSizes(xs[..i], SCHEMA_BYTES);
      EqualSizes(xs[..i + 1], SCHEMA_BYTES);
    }
  }

  lemma RowSize(ds: seq<Declared>, i: nat)
    requires Admissible(ds) && i < |ds|
    ensures |ds[i].name| <= NAME_BYTES && |SchemaRow(i, ds[i]).data| == SCHEMA_BYTES
  {
    assert Admitted(ds[i]);
  }

  /** What the stream knows of a vCPU's registers after `n` schema rows. */
  function FileAfter(ds: seq<Declared>, n: nat): Option<RegisterFile>
    requires Admissible(ds) && n <= |ds|
  {
    if n == 0 then None else Some(FileOf(ds, n))
  }

  function Declares(s: State, index: nat, ds: seq<Declared>, n: nat): State
    requires Admissible(ds) && n <= |ds| && index < MAX_SOURCES
  {
    if n == 0 then s
    else SetSource(s, index, s.sources[index].(registers := Some(FileOf(ds, n)), seen := true))
  }

  /** A source that may still declare registers. */
  predicate Undeclared(s: State, index: nat)
    requires index < MAX_SOURCES
  {
    && Open(s) && s.features.registers && (s.features.stdio ==> index == 0)
    && !s.sources[index].ended && !s.sources[index].data && s.sources[index].registers == None
  }

  function SchemaBatch(ds: seq<Declared>, from: nat, until: nat): Batch
    requires Admissible(ds) && from <= until <= |ds|
  {
    Batch(RegisterSchema, 0, SchemaRows(ds, from, until))
  }

  lemma SchemaSized(index: nat, ds: seq<Declared>, from: nat, until: nat)
    requires Admissible(ds) && from < until <= |ds| && index < MAX_SOURCES
    requires (until - from) * SCHEMA_BYTES <= MAX_PAYLOAD
    ensures var frame := BatchFrame(index, SchemaBatch(ds, from, until));
      && WellSized(frame) && LegalHeader(frame.header) && RowsIn(frame.payload, ds, from, until)
      && frame.header == Header(RegisterSchema, index, until - from, 0, (until - from) * SCHEMA_BYTES, VERSION)
  {
    hide Joined, SchemaRow, Admissible;
    RowsJoined(ds, from, until);
  }

  /** A frame of schema rows continues the schema exactly when its names are printable. */
  lemma SchemaAccepted(s: State, index: nat, ds: seq<Declared>, from: nat, until: nat)
    requires Admissible(ds) && from < until <= |ds| && index < MAX_SOURCES && Undeclared(s, index)
    requires (until - from) * SCHEMA_BYTES <= MAX_PAYLOAD
    ensures var frame := BatchFrame(index, SchemaBatch(ds, from, until));
      && WellSized(frame)
      && Accept(Declares(s, index, ds, from), frame) ==
         if AllPrintable(ds[from..until]) then Some(Declares(s, index, ds, until)) else None
  {
    hide Declares, RowsIn, Admissible, AllPrintable, BatchFrame, LegalHeader, Accept, AcceptSchema;
    var frame, t := BatchFrame(index, SchemaBatch(ds, from, until)), Declares(s, index, ds, from);
    SchemaSized(index, ds, from, until);
    DeclaresSource(s, index, ds, from);
    SchemaDispatch(t, frame);
    SchemaDecision(s, index, ds, from, until, frame.header, frame.payload);
  }

  lemma DeclaresSource(s: State, index: nat, ds: seq<Declared>, n: nat)
    requires Admissible(ds) && n <= |ds| && index < MAX_SOURCES && Undeclared(s, index)
    ensures var t := Declares(s, index, ds, n);
      && Open(t) && t.features == s.features && !t.sources[index].ended && !t.sources[index].data
      && t.sources[index].registers == FileAfter(ds, n)
  {
    hide Admissible, FileOf;
  }

  lemma SchemaDecision(s: State, index: nat, ds: seq<Declared>, from: nat, until: nat, h: Header, b: seq<byte>)
    requires Admissible(ds) && from < until <= |ds| && index < MAX_SOURCES && Undeclared(s, index)
    requires RowsIn(b, ds, from, until) && h.source == index && h.count == until - from
    ensures AcceptSchema(Declares(s, index, ds, from), h, b) ==
      if AllPrintable(ds[from..until]) then Some(Declares(s, index, ds, until)) else None
  {
    hide FileOf, Declare, RowsIn, Admissible, AllPrintable;
    NoFile(ds);
    DeclareDecides(b, ds, from, 0, until);
    RowsSize(b, ds, from, until);
    SchemaStep(s, index, ds, from, until, h, b);
  }

  lemma SchemaStep(s: State, index: nat, ds: seq<Declared>, from: nat, until: nat, h: Header, b: seq<byte>)
    requires Admissible(ds) && from < until <= |ds| && index < MAX_SOURCES && Undeclared(s, index)
    requires h.source == index && h.count == until - from && |b| == (until - from) * SCHEMA_BYTES
    requires FileOf(ds, 0) == map[]
    ensures AcceptSchema(Declares(s, index, ds, from), h, b) ==
      match Declare(FileOf(ds, from), b, 0, until - from)
      case None => None
      case Some(regs) => Some(SetSource(s, index, s.sources[index].(registers := Some(regs), seen := true)))
  {
    hide FileOf, Declare, Admissible;
    var t, d := Declares(s, index, ds, from), Declare(FileOf(ds, from), b, 0, until - from);
    if d.Some? {
      var after := s.sources[index].(registers := Some(d.value), seen := true);
      assert t.sources[index := after] == s.sources[index := after];
    }
  }

  lemma RowsSize(b: seq<byte>, ds: seq<Declared>, from: nat, until: nat)
    requires Admissible(ds) && from <= until <= |ds| && RowsIn(b, ds, from, until)
    ensures |b| == (until - from) * SCHEMA_BYTES
  {
  }

  lemma NoFile(ds: seq<Declared>)
    requires Admissible(ds)
    ensures FileOf(ds, 0) == map[]
  {
  }

  lemma SchemaDispatch(s: State, frame: Frame)
    requires Open(s) && LegalHeader(frame.header) && WellSized(frame) && frame.header.kind == RegisterSchema
    requires frame.header.version == VERSION
    requires !s.sources[frame.header.source].ended && (s.features.stdio ==> frame.header.source == 0)
    ensures frame.header.source < MAX_SOURCES && frame.header.count * SCHEMA_BYTES <= |frame.payload|
    ensures Accept(s, frame) == AcceptSchema(s, frame.header, frame.payload)
  {
    hide AcceptSchema;
  }

  // ---------------------------------------------------------------- all frames

  datatype Setup = Setup(batch: Batch, sent: seq<Sent>)

  /** The setup loop: appends one row after the other, flushing full buffers. */
  function PutSchemas(f: Features, index: nat, b: Batch, ds: seq<Declared>, n: nat): Setup
    requires Admissible(ds) && n <= |ds|
  {
    if n == 0 then Setup(b, [])
    else
      var p, x := PutSchemas(f, index, b, ds, n - 1), SchemaRow(n - 1, ds[n - 1]);
      Setup(Joining(p.batch, f.mixed, x), p.sent + MadeRoom(f, index, p.batch, x))
  }

  /** Sending these frames declares the first `k` registers, provided their names are printable. */
  ghost predicate Sends(s: State, index: nat, ds: seq<Declared>, k: nat, sent: seq<Sent>)
    requires Admissible(ds) && k <= |ds| && index < MAX_SOURCES
  {
    && Sized(Frames(sent)) && MemorySent(sent) == 0 && Apart(sent)
    && AcceptAll(s, Frames(sent)) == if AllPrintable(ds[..k]) then Some(Declares(s, index, ds, k)) else None
  }

  lemma PrintableParts(ds: seq<Declared>, k: nat, n: nat)
    requires k <= n <= |ds|
    ensures AllPrintable(ds[..n]) <==> AllPrintable(ds[..k]) && AllPrintable(ds[k..n])
  {
    hide Printable;
    if AllPrintable(ds[..n]) {
      forall i | 0 <= i < k ensures Printable(ds[..k][i]) { assert ds[..n][i] == ds[i]; }
      forall i | 0 <= i < n - k ensures Printable(ds[k..n][i]) { assert ds[..n][k + i] == ds[k + i]; }
    }
    if AllPrintable(ds[..k]) && AllPrintable(ds[k..n]) {
      forall i | 0 <= i < n ensures Printable(ds[..n][i]) {
        if i < k { assert ds[..k][i] == ds[i]; } else { assert ds[k..n][i - k] == ds[i]; }
      }
    }
  }

  lemma NothingSends(s: State, index: nat, ds: seq<Declared>)
    requires Admissible(ds) && index < MAX_SOURCES
    ensures Sends(s, index, ds, 0, [])
  {
    assert Frames([]) == [];
  }

  lemma NoMemory(ds: seq<Declared>, from: nat, until: nat)
    requires Admissible(ds) && from <= until <= |ds|
    ensures MemoryCount(SchemaRows(ds, from, until)) == 0 && NoTwins(SchemaRows(ds, from, until))
  {
    hide SchemaRow;
    KindsCount(SchemaRows(ds, from, until));
  }

  lemma {:induction false} KindsCount(items: seq<Item>)
    requires forall i :: 0 <= i < |items| ==> items[i].kind == RegisterSchema
    ensures MemoryCount(items) == 0 && NoTwins(items)
  {
    if items == [] {
    } else {
      KindsCount(items[..|items| - 1]);
    }
  }

  /** One more frame of the schema. */
  lemma FrameSends(s: State, index: nat, ds: seq<Declared>, k: nat, n: nat, sent: seq<Sent>)
    requires Admissible(ds) && k < n <= |ds| && index < MAX_SOURCES && Undeclared(s, index)
    requires (n - k) * SCHEMA_BYTES <= MAX_PAYLOAD && Sends(s, index, ds, k, sent)
    ensures Sends(s, index, ds, n, sent + Drained(index, SchemaBatch(ds, k, n)))
  {
    hide Admissible, AllPrintable, Declares, Accept, AcceptAll, Undeclared, MemoryCount, NoTwins, Apart, MemorySent,
      Frames, BatchFrame;
    var x := Sent(BatchFrame(index, SchemaBatch(ds, k, n)), SchemaRows(ds, k, n));
    assert Drained(index, SchemaBatch(ds, k, n)) == [x];
    SentAppend(sent, x);
    NoMemory(ds, k, n);
    PrintableParts(ds, k, n);
    SchemaAccepted(s, index, ds, k, n);
    OneMoreFrame(s, Frames(sent), x.frame);
  }

  lemma RowsNext(ds: seq<Declared>, k: nat, n: nat)
    requires Admissible(ds) && k <= n < |ds|
    ensures SchemaRows(ds, k, n) + [SchemaRow(n, ds[n])] == SchemaRows(ds, k, n + 1)
    ensures SchemaRows(ds, k, k) == []
  {
    hide SchemaRow;
  }

  lemma RowsPayload(ds: seq<Declared>, k: nat, n: nat)
    requires Admissible(ds) && k <= n <= |ds|
    ensures |Payload(SchemaBatch(ds, k, n))| == (n - k) * SCHEMA_BYTES
  {
    hide Joined, Admissible, SchemaRow;
    RowsJoined(ds, k, n);
  }

  lemma NoneBuffered(index: nat, b: Batch)
    ensures b.items == [] ==> Drained(index, b) == []
  {
    hide BatchFrame;
  }

  /** The loop keeps: the rows before `k` are sent, those from `k` on are buffered. */
  lemma {:induction false} SetupSends(s: State, index: nat, b: Batch, ds: seq<Declared>, n: nat) returns (k: nat)
    requires Admissible(ds) && n <= |ds| && index < MAX_SOURCES && Undeclared(s, index)
    requires b.items == [] && b.next == 0
    ensures k <= n && (n - k) * SCHEMA_BYTES <= MAX_PAYLOAD
    ensures var p := PutSchemas(s.features, index, b, ds, n);
      Sends(s, index, ds, k, p.sent) && if n == 0 then p.batch == b else k < n && p.batch == SchemaBatch(ds, k, n)
  {
    hide Sends, Joining, MadeRoom, Undeclared, SchemaRow, SchemaBatch, Admissible;
    if n == 0 {
      NothingSends(s, index, ds);
      k := 0;
    } else {
      k := SetupSends(s, index, b, ds, n - 1);
      k := NextSends(s, index, PutSchemas(s.features, index, b, ds, n - 1), ds, n - 1, k);
    }
  }

  lemma NextSends(s: State, index: nat, p: Setup, ds: seq<Declared>, n: nat, k: nat) returns (next: nat)
    requires Admissible(ds) && k <= n < |ds| && index < MAX_SOURCES && Undeclared(s, index)
    requires (n - k) * SCHEMA_BYTES <= MAX_PAYLOAD && Sends(s, index, ds, k, p.sent)
    requires if n == 0 then p.batch.items == [] && p.batch.next == 0 else k < n && p.batch == SchemaBatch(ds, k, n)
    ensures next <= n && (n + 1 - next) * SCHEMA_BYTES <= MAX_PAYLOAD
    ensures |ds[n].name| <= NAME_BYTES
    ensures var x := SchemaRow(n, ds[n]);
      && Joining(p.batch, s.features.mixed, x) == SchemaBatch(ds, next, n + 1)
      && Sends(s, index, ds, next, p.sent + MadeRoom(s.features, index, p.batch, x))
  {
    hide Sends, Joined, Undeclared, SchemaRow;
    var x := SchemaRow(n, ds[n]);
    RowsNext(ds, n, n);
    RowsNext(ds, k, n);
    RowsPayload(ds, k, n);
    hide Admissible, Payload, SchemaRows, Drained;
    NoneBuffered(index, p.batch);
    assert p.sent + [] == p.sent;
    next := k;
    if n > 0 && !Joins(p.batch, s.features.mixed, x) {
      FrameSends(s, index, ds, k, n, p.sent);
      next := n;
    }
  }

  /**
   * The whole setup, its last flush included: accepted exactly when every name is
   * printable, and then the stream knows exactly these registers.
   */
  lemma SetupAccepted(s: State, index: nat, b: Batch, ds: seq<Declared>)
    requires Admissible(ds) && index < MAX_SOURCES && Undeclared(s, index) && b.items == [] && b.next == 0
    ensures var p := PutSchemas(s.features, index, b, ds, |ds|);
      && Sends(s, index, ds, |ds|, p.sent + Drained(index, p.batch)) && ds[..|ds|] == ds
      && p.batch == Batch(if ds == [] then b.kind else RegisterSchema, 0, p.batch.items)
  {
    hide Admissible, Undeclared, Sends, PutSchemas, BatchFrame;
    var k := SetupSends(s, index, b, ds, |ds|);
    var p := PutSchemas(s.features, index, b, ds, |ds|);
    if ds == [] {
      assert p.sent + [] == p.sent;
    } else {
      FrameSends(s, index, ds, k, |ds|, p.sent);
    }
  }
}
