/**
The setup loop of a starting vCPU in the plugin's own form: every selected register is
checked, a schema row is appended to the vCPU's buffer, and the buffer is flushed.
*/
module RegisterSetup {
  import opened Words
  import opened Wire
  import opened RowBatches
  import opened RowStreams
  import opened SourceBuffer
  import opened RegisterSchemas

  /** A name as the emulator hands it over: no zero byte inside. */
  predicate Text(name: seq<byte>) {
    forall i :: 0 <= i < |name| ==> name[i] != 0
  }

  method CheckName(name: seq<byte>) returns (ok: bool)
    requires Text(name)
    ensures ok <==> 0 < |name| < NAME_BYTES && forall i :: 0 <= i < |name| ==> 0 < name[i] <= 127
  {
    if |name| == 0 || |name| >= NAME_BYTES { return false; }
    for i := 0 to |name|
      invariant forall j :: 0 <= j < i ==> 0 < name[j] <= 127
    {
      if name[i] > 127 { return false; }
    }
    return true;
  }

  /** Whether one of the first `n` registers has this name. */
  method NameTaken(ds: seq<Declared>, n: nat, name: seq<byte>) returns (taken: bool)
    requires n <= |ds|
    ensures taken <==> exists i :: 0 <= i < n && ds[i].name == name
  {
    for i := 0 to n
      invariant forall j :: 0 <= j < i ==> ds[j].name != name
    {
      if ds[i].name == name { return true; }
    }
    return false;
  }

  lemma AdmissibleNext(ds: seq<Declared>, n: nat)
    requires n < |ds| && Admissible(ds[..n])
    ensures n <= MAX_REGISTERS
    ensures Admissible(ds[..n + 1]) <==>
      n < MAX_REGISTERS && Admitted(ds[n]) && forall i :: 0 <= i < n ==> ds[i].name != ds[n].name
  {
    hide Admitted;
    var front, more := ds[..n], ds[..n + 1];
    if Admissible(more) {
      assert more[n] == ds[n];
      forall i | 0 <= i < n ensures ds[i].name != ds[n].name { assert more[i] == ds[i]; }
    }
    if n < MAX_REGISTERS && Admitted(ds[n]) && forall i :: 0 <= i < n ==> ds[i].name != ds[n].name {
      forall i | 0 <= i < n + 1 ensures Admitted(more[i]) { if i < n { assert more[i] == front[i]; } }
      forall i, j | 0 <= i < j < n + 1 ensures more[i].name != more[j].name {
        assert more[i] == front[i];
        if j < n { assert more[j] == front[j]; }
      }
    }
  }

  lemma AdmissibleFront(ds: seq<Declared>, n: nat)
    requires n <= |ds| && Admissible(ds)
    ensures Admissible(ds[..n])
  {
    hide Admitted;
  }

  /** The loop looks only at the registers it has passed. */
  lemma {:induction false} SamePrefix(f: Features, index: nat, b: Batch, ds: seq<Declared>, es: seq<Declared>, n: nat)
    requires Admissible(ds) && Admissible(es) && n <= |ds| && n <= |es| && ds[..n] == es[..n]
    ensures PutSchemas(f, index, b, ds, n) == PutSchemas(f, index, b, es, n)
  {
    hide Joining, MadeRoom, Admissible, SchemaRow;
    if n == 0 {
    } else {
      assert ds[..n - 1] == ds[..n][..n - 1] == es[..n - 1];
      assert ds[n - 1] == ds[..n][n - 1] == es[n - 1];
      RowSize(ds, n - 1);
      SamePrefix(f, index, b, ds, es, n - 1);
    }
  }

  lemma PutNext(f: Features, index: nat, b: Batch, ds: seq<Declared>, n: nat)
    requires n < |ds| && Admissible(ds[..n]) && Admissible(ds[..n + 1])
    ensures |ds[n].name| <= NAME_BYTES
    ensures var p, x := PutSchemas(f, index, b, ds[..n], n), SchemaRow(n, ds[n]);
      PutSchemas(f, index, b, ds[..n + 1], n + 1) ==
        Setup(Joining(p.batch, f.mixed, x), p.sent + MadeRoom(f, index, p.batch, x))
  {
    hide Joining, MadeRoom, Admissible, SchemaRow;
    assert ds[..n + 1][n] == ds[n] && ds[..n + 1][..n] == ds[..n] && ds[..n][..n] == ds[..n];
    RowSize(ds[..n + 1], n);
    SamePrefix(f, index, b, ds[..n], ds[..n + 1], n);
  }

  /** What the buffer publishes to make room, and when it is flushed. */
  lemma SentFrames(f: Features, index: nat, b: Batch, x: Item)
    requires b.kind == RegisterSchema || |b.items| <= b.next
    ensures Frames(MadeRoom(f, index, b, x)) == Emitted(index, b, f.mixed, x)
    ensures Frames(Drained(index, b)) == Flushed(index, b)
  {
    hide BatchFrame, Joins;
  }

  lemma WireJoin(a: seq<Sent>, b: seq<Sent>)
    ensures OnWire(Frames(a + b)) == OnWire(Frames(a)) + OnWire(Frames(b))
  {
    hide EncodeHeader;
  }

  lemma BufferCounted(buffer: Buffer)
    requires buffer.Valid()
    ensures buffer.View().kind == RegisterSchema || |buffer.View().items| <= buffer.View().next
  {
    hide Payload, Fits;
  }

  /** Where the loop stands after the first `n` registers. */
  ghost predicate After(buffer: Buffer, f: Features, b: Batch, published: seq<seq<byte>>, ds: seq<Declared>, n: nat)
    requires n <= |ds| && Admissible(ds[..n])
    reads buffer, buffer.bytes
  {
    var p := PutSchemas(f, buffer.index, b, ds[..n], n);
    buffer.Valid() && buffer.View() == p.batch && buffer.published == published + OnWire(Frames(p.sent))
  }

  /** `register_setup`: fails exactly on registers it must not declare, otherwise sends the schema and nothing else. */
  method DeclareAll(buffer: Buffer, ds: seq<Declared>, ghost f: Features) returns (ok: bool)
    requires buffer.Valid() && f.mixed == buffer.mixed && forall i :: 0 <= i < |ds| ==> Text(ds[i].name)
    modifies buffer, buffer.bytes
    ensures ok <==> Admissible(ds)
    ensures ok ==>
      var p := PutSchemas(f, buffer.index, old(buffer.View()), ds, |ds|);
      && buffer.Valid() && buffer.View() == p.batch.(items := [])
      && buffer.published == old(buffer.published) + OnWire(Frames(p.sent + Drained(buffer.index, p.batch)))
  {
    hide Admissible, PutSchemas, buffer.Valid, Joining, MadeRoom, OnWire, Frames, Drained, Emitted, Flushed;
    ghost var b, published := buffer.View(), buffer.published;
    NothingDeclared(f, buffer.index, b, ds, published);
    var n := 0;
    while n < |ds|
      invariant n <= |ds| && Admissible(ds[..n]) && After(buffer, f, b, published, ds, n)
    {
      var named := CheckName(ds[n].name);
      var taken := NameTaken(ds, n, ds[n].name);
      AdmissibleNext(ds, n);
      if !named || n == MAX_REGISTERS || taken || ds[n].width == 0 || ds[n].width > MAX_REGISTER_BYTES {
        Refuses(ds, n);
        return false;
      }
      AppendRow(buffer, f, b, published, ds, n);
      n := n + 1;
    }
    assert ds[..n] == ds;
    ghost var p := PutSchemas(f, buffer.index, b, ds, n);
    BufferCounted(buffer);
    SentFrames(f, buffer.index, p.batch, Item(RegisterSchema, []));
    WireJoin(p.sent, Drained(buffer.index, p.batch));
    buffer.Flush();
    return true;
  }

  lemma NothingDeclared(f: Features, index: nat, b: Batch, ds: seq<Declared>, published: seq<seq<byte>>)
    ensures Admissible(ds[..0]) && PutSchemas(f, index, b, ds[..0], 0) == Setup(b, [])
    ensures published + OnWire(Frames([])) == published
  {
    assert Frames([]) == [];
  }

  lemma Refuses(ds: seq<Declared>, n: nat)
    requires n < |ds| && !Admissible(ds[..n + 1])
    ensures !Admissible(ds)
  {
    hide Admissible;
    if Admissible(ds) { AdmissibleFront(ds, n + 1); }
  }

  method AppendRow(buffer: Buffer, ghost f: Features, ghost b: Batch, ghost published: seq<seq<byte>>,
                   ds: seq<Declared>, n: nat)
    requires n < |ds| && Admissible(ds[..n]) && Admissible(ds[..n + 1]) && f.mixed == buffer.mixed
    requires After(buffer, f, b, published, ds, n)
    modifies buffer, buffer.bytes
    ensures After(buffer, f, b, published, ds, n + 1)
  {
    hide Admissible, PutSchemas, buffer.Valid, Joining, MadeRoom, OnWire, Frames, Emitted, SchemaRow;
    PutNext(f, buffer.index, b, ds, n);
    ghost var p := PutSchemas(f, buffer.index, b, ds[..n], n);
    var x := SchemaRow(n, ds[n]);
    RowFits(buffer.mixed, x);
    BufferCounted(buffer);
    SentFrames(f, buffer.index, p.batch, x);
    WireJoin(p.sent, MadeRoom(f, buffer.index, p.batch, x));
    var ok := buffer.Append(x);
  }

  lemma RowFits(mixed: bool, x: Item)
    requires x.kind == RegisterSchema && |x.data| == SCHEMA_BYTES
    ensures Fits(mixed, x)
  {
  }
}
