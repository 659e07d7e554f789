/**
Continuous reduction on values: the block positions at which a vCPU's execution
context changed, the context rows retained for the first of them, and the bytes
of those rows.
*/
module Contexts {
  import opened Words
  import opened Wire
  import opened Validator
  import opened RowBatches

  /** The six control values that make up a context. */
  datatype Context = Context(cr0: u64, cr3: u64, cr4: u64, efer: u64, csBase: u64, mode: u64)

  /** One recorded block entry and the context read there. */
  datatype Entry = Entry(pc: u64, context: Context)

  predicate ChangedAt(entries: seq<Entry>, k: nat)
    requires k < |entries|
  {
    k == 0 || entries[k].context != entries[k - 1].context
  }

  /** The positions of all changes, in order. */
  function Changes(entries: seq<Entry>): seq<nat> {
    if entries == [] then []
    else
      var last := |entries| - 1;
      Changes(entries[..last]) + if ChangedAt(entries, last) then [last] else []
  }

  ghost predicate Ascending(s: seq<nat>) {
    forall i, j :: 0 <= i < j < |s| ==> s[i] < s[j]
  }

  /** `Changes` is the ascending list of exactly the positions where the context changed. */
  lemma {:induction false} ChangesMeaning(entries: seq<Entry>)
    ensures Ascending(Changes(entries))
    ensures forall i :: 0 <= i < |Changes(entries)| ==> Changes(entries)[i] < |entries|
    ensures forall k :: 0 <= k < |entries| ==> (k in Changes(entries) <==> ChangedAt(entries, k))
    ensures |Changes(entries)| <= |entries| && (entries != [] ==> Changes(entries) != [])
  {
    if entries == [] {
    } else {
      var last := |entries| - 1;
      var front := entries[..last];
      ChangesMeaning(front);
      assert front + [entries[last]] == entries;
      ChangesStep(front, entries[last]);
      hide Changes;
      AscendingNext(Changes(front), Changes(entries), last);
      forall k | 0 <= k < last ensures k in Changes(entries) <==> ChangedAt(entries, k) {
        assert ChangedAt(front, k) == ChangedAt(entries, k);
      }
    }
  }

  lemma AscendingNext(s: seq<nat>, t: seq<nat>, n: nat)
    requires Ascending(s) && (forall i :: 0 <= i < |s| ==> s[i] < n) && (t == s || t == s + [n])
    ensures Ascending(t) && forall i :: 0 <= i < |t| ==> t[i] < n + 1
  {
  }

  lemma {:induction false} ChangesStep(entries: seq<Entry>, entry: Entry)
    ensures Changes(entries + [entry]) ==
      Changes(entries) + if entries == [] || entry.context != entries[|entries| - 1].context then [|entries|] else []
  {
    assert (entries + [entry])[..|entries|] == entries;
  }

  /** The positions whose context rows fit the bound. */
  function Positions(entries: seq<Entry>, capacity: nat): seq<nat> {
    Changes(entries)[..Min(capacity, |Changes(entries)|)]
  }

  function ContextBytes(position: nat, entry: Entry, known: nat): (b: seq<byte>)
    ensures |b| == REDUCED_CONTEXT_BYTES
  {
    var c := entry.context;
    Bytes(position, 8) + Bytes(entry.pc, 8) + Bytes(c.cr0, 8) + Bytes(c.cr3, 8) + Bytes(c.cr4, 8) +
    Bytes(c.efer, 8) + Bytes(c.csBase, 8) + Bytes(c.mode, 8) + Bytes(known, 8)
  }

  /** A context the target can report: mode and code base only where the reader provides them. */
  predicate ValidMode(known: nat, c: Context) {
    ValidContext(c.csBase, c.mode, known)
  }

  lemma {:induction false} PositionsBound(entries: seq<Entry>, capacity: nat)
    ensures Ascending(Positions(entries, capacity))
    ensures forall i :: 0 <= i < |Positions(entries, capacity)| ==> Positions(entries, capacity)[i] < |entries|
    ensures |Positions(entries, capacity)| == Min(capacity, |Changes(entries)|)
    ensures |Changes(entries)| <= |entries| && (entries != [] ==> Changes(entries) != [])
  {
    ChangesMeaning(entries);
  }

  /** The retained rows as they are appended to the vCPU's buffer. */
  function ContextItems(entries: seq<Entry>, capacity: nat, known: nat): (items: seq<Item>)
    ensures |items| == |Positions(entries, capacity)|
    ensures forall i :: 0 <= i < |items| ==> items[i].kind == ReducedContext && |items[i].data| == REDUCED_CONTEXT_BYTES
  {
    PositionsBound(entries, capacity);
    var ps := Positions(entries, capacity);
    seq(|ps|, i requires 0 <= i < |ps| => Item(ReducedContext, ContextBytes(ps[i], entries[ps[i]], known)))
  }

  lemma {:induction false} ItemAt(entries: seq<Entry>, capacity: nat, known: nat, i: nat)
    requires i < |Positions(entries, capacity)|
    ensures Positions(entries, capacity)[i] < |entries|
    ensures ContextItems(entries, capacity, known)[i] ==
      Item(ReducedContext,
           ContextBytes(Positions(entries, capacity)[i], entries[Positions(entries, capacity)[i]], known))
  {
    PositionsBound(entries, capacity);
  }

  /** Later blocks never change a retained row; a change adds one while there is room. */
  lemma {:induction false} ItemsStep(entries: seq<Entry>, entry: Entry, capacity: nat, known: nat)
    ensures var changed := entries == [] || entry.context != entries[|entries| - 1].context;
      var n := |Changes(entries)|;
      && |Changes(entries + [entry])| == (if changed then n + 1 else n)
      && Positions(entries + [entry], capacity) ==
           Positions(entries, capacity) + (if changed && n < capacity then [|entries|] else [])
      && ContextItems(entries + [entry], capacity, known) ==
           ContextItems(entries, capacity, known) +
           (if changed && n < capacity then [Item(ReducedContext, ContextBytes(|entries|, entry, known))] else [])
  {
    ChangesStep(entries, entry);
    PositionsBound(entries, capacity);
    hide Changes, ContextBytes;
    var more := entries + [entry];
    var a, b := Positions(entries, capacity), Positions(more, capacity);
    assert a <= b;
    forall i | 0 <= i < |a|
      ensures ContextItems(more, capacity, known)[i] == ContextItems(entries, capacity, known)[i]
    {
      ItemAt(entries, capacity, known, i);
      ItemAt(more, capacity, known, i);
      assert more[a[i]] == entries[a[i]];
    }
    if |b| > |a| { ItemAt(more, capacity, known, |a|); }
  }
}
