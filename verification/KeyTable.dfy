/**
The duplicate detector of the stream validator: an open-addressed table that
doubles before it is half full and is cleared by moving to the next window.
It refines a mathematical set of keys.
*/
module KeyTable {
  import opened Probe
  import opened Transitions
  import opened Validator

  datatype KeySlot = KeySlot(window: nat, key: Key)

  /** The table as one window sees it: slots stamped by other windows are free. */
  ghost function Cells(slots: seq<KeySlot>, window: nat): (cells: seq<Cell<Key>>)
    ensures |cells| == |slots|
    ensures forall i :: 0 <= i < |slots| ==> cells[i] == if slots[i].window == window then Used(slots[i].key) else Free
  {
    seq(|slots|, i requires 0 <= i < |slots| => if slots[i].window == window then Used(slots[i].key) else Free)
  }

  ghost function Live(slots: seq<KeySlot>, window: nat): set<Key> {
    Keys(Cells(slots, window))
  }

  function Masked(hash: Key -> nat, capacity: nat): (home: Key -> nat)
    requires capacity > 0
    ensures Homes(home, capacity)
  {
    k => hash(k) % capacity
  }

  lemma NoLiveKeys(slots: seq<KeySlot>, window: nat, home: Key -> nat)
    requires |slots| > 0 && Homes(home, |slots|)
    requires forall i :: 0 <= i < |slots| ==> slots[i].window != window
    ensures Table(Cells(slots, window), home) && Live(slots, window) == {}
  {
  }

  lemma Member(slots: seq<KeySlot>, window: nat, at: nat)
    requires at < |slots| && slots[at].window == window
    ensures slots[at].key in Live(slots, window)
  {
    assert Cells(slots, window)[at] == Used(slots[at].key);
  }

  lemma LivePrefix(slots: seq<KeySlot>, window: nat, n: nat)
    requires n < |slots|
    ensures Live(slots[..n + 1], window) ==
      Live(slots[..n], window) + if slots[n].window == window then {slots[n].key} else {}
    ensures Live(slots[..n], window) <= Live(slots, window)
  {
    var a, b, c := Cells(slots[..n], window), Cells(slots[..n + 1], window), Cells(slots, window);
    assert forall i :: 0 <= i < n ==> a[i] == b[i] == c[i];
    assert b[n] == c[n];
    forall k | k in Keys(b) ensures k in Keys(a) || (slots[n].window == window && k == slots[n].key) {
      var i :| 0 <= i < |b| && b[i].Used? && b[i].key == k;
      if i < n { assert a[i].key == k; }
    }
    forall k | k in Keys(a) ensures k in Keys(b) && k in Keys(c) {
      var i :| 0 <= i < |a| && a[i].Used? && a[i].key == k;
      assert b[i].key == k && c[i].key == k;
    }
    if slots[n].window == window { assert b[n].key == slots[n].key; }
  }

  /** Keys of distinct slots differ, so a slot's key is new to the slots before it. */
  lemma FreshInPrefix(slots: seq<KeySlot>, window: nat, n: nat)
    requires n < |slots| && slots[n].window == window && DistinctKeys(Cells(slots, window))
    ensures slots[n].key !in Live(slots[..n], window)
  {
    var a, c := Cells(slots[..n], window), Cells(slots, window);
    assert c[n] == Used(slots[n].key);
    forall i | 0 <= i < |a| && a[i].Used? ensures a[i].key != slots[n].key {
      assert c[i] == a[i];
    }
  }

  /** A table with room cannot be walked all the way round. */
  lemma Room(cells: seq<Cell<Key>>, home: Key -> nat, k: Key)
    requires Table(cells, home) && |Keys(cells)| < |cells|
    ensures !Passed(cells, home, k, |cells|)
  {
    if Passed(cells, home, k, |cells|) {
      PassedAll(cells, home, k);
      FullCount(cells);
      assert false;
    }
  }

  /** `distinct` keys of `window` are live, and they fill at most half the table. */
  ghost predicate Holds(slots: seq<KeySlot>, hash: Key -> nat, window: nat, distinct: nat) {
    && 0 < window && |slots| <= 4 * MAX_TRANSITION_SLOTS
    && (forall i :: 0 <= i < |slots| ==> slots[i].window <= window)
    && (|slots| == 0 ==> distinct == 0)
    && (|slots| > 0 ==> |slots| >= 512 && distinct * 2 <= |slots| && Table(Cells(slots, window), Masked(hash, |slots|)))
    && distinct == |Live(slots, window)|
  }

  lemma EmptyHolds(hash: Key -> nat)
    ensures Holds([], hash, 1, 0) && Live([], 1) == {}
  {
    assert Live([], 1) == {};
  }

  /** Moving to the next window empties the set without touching a slot. */
  lemma NextWindow(slots: seq<KeySlot>, hash: Key -> nat, window: nat, distinct: nat)
    requires Holds(slots, hash, window, distinct)
    ensures Holds(slots, hash, window + 1, 0) && Live(slots, window + 1) == {}
  {
    if |slots| > 0 { NoLiveKeys(slots, window + 1, Masked(hash, |slots|)); }
    assert Live(slots, window + 1) == {};
  }

  /**
  Walks from the key's home to the first slot that is free or holds the key. The
  loop has no bound of its own; it ends because the table has a free slot.
  */
  method Find(table: seq<KeySlot>, window: nat, key: Key, ghost home: Key -> nat, start: nat) returns (at: nat)
    requires |table| > 0 && Table(Cells(table, window), home) && |Live(table, window)| < |table|
    requires start == home(key)
    ensures at < |table|
    ensures table[at].window == window ==> table[at].key == key
    ensures Passed(Cells(table, window), home, key, Distance(start, at, |table|))
  {
    ghost var cells := Cells(table, window);
    hide Reachable, DistinctKeys;
    at := start;
    ghost var probe := 0;
    while table[at].window == window && table[at].key != key
      invariant at < |table| && probe < |table|
      invariant Distance(start, at, |table|) == probe
      invariant Passed(cells, home, key, probe)
      decreases |table| - probe
    {
      assert cells[at] == Used(table[at].key);
      PassedStep(cells, home, key, probe, at);
      Room(cells, home, key);
      at := Next(at, |table|);
      probe := probe + 1;
    }
  }

  /** Stamping the free slot that a probe for an absent key ended on. */
  lemma Claim(table: seq<KeySlot>, window: nat, key: Key, home: Key -> nat, at: nat)
    requires |table| > 0 && Table(Cells(table, window), home)
    requires at < |table| && table[at].window != window
    requires Passed(Cells(table, window), home, key, Distance(home(key), at, |table|))
    ensures key !in Live(table, window)
    ensures Table(Cells(table[at := KeySlot(window, key)], window), home)
    ensures Live(table[at := KeySlot(window, key)], window) == Live(table, window) + {key}
  {
    var cells := Cells(table, window);
    FreeMeansAbsent(cells, home, key, at);
    hide Reachable, DistinctKeys;
    assert Cells(table[at := KeySlot(window, key)], window) == cells[at := Used(key)];
  }

  function Blank(capacity: nat): (slots: seq<KeySlot>)
    ensures |slots| == capacity && forall i :: 0 <= i < capacity ==> slots[i].window == 0
  {
    seq(capacity, _ => KeySlot(0, Key(0, Transitions.Pair(0, 0))))
  }

  lemma NoLivePrefix(slots: seq<KeySlot>, window: nat)
    ensures Live(slots[..0], window) == {}
  {
    assert Cells(slots[..0], window) == [];
  }

  lemma PrefixStep(slots: seq<KeySlot>, hash: Key -> nat, window: nat, distinct: nat, index: nat)
    requires Holds(slots, hash, window, distinct) && index < |slots|
    ensures |Live(slots[..index], window)| <= distinct
    ensures slots[index].window == window ==> slots[index].key !in Live(slots[..index], window)
    ensures Live(slots[..index + 1], window) ==
      Live(slots[..index], window) + if slots[index].window == window then {slots[index].key} else {}
  {
    LivePrefix(slots, window, index);
    SubsetSize(Live(slots[..index], window), Live(slots, window));
    if slots[index].window == window { FreshInPrefix(slots, window, index); }
  }

  lemma HoldsCount(slots: seq<KeySlot>, hash: Key -> nat, window: nat, distinct: nat)
    requires Holds(slots, hash, window, distinct)
    ensures 0 < window && distinct == |Live(slots, window)|
  {
    hide Live, Table;
  }

  lemma HalfEmpty(distinct: nat, capacity: nat)
    requires distinct * 2 <= capacity && 512 <= capacity
    ensures distinct < capacity
  {
  }

  /** A key that is not there yet goes to the first free slot from its home on. */
  method Place(table: seq<KeySlot>, window: nat, key: Key, home: Key -> nat) returns (placed: seq<KeySlot>)
    requires |table| > 0 && Table(Cells(table, window), home) && |Live(table, window)| < |table|
    requires key !in Live(table, window) && forall i :: 0 <= i < |table| ==> table[i].window <= window
    ensures |placed| == |table| && forall i :: 0 <= i < |placed| ==> placed[i].window <= window
    ensures Table(Cells(placed, window), home) && Live(placed, window) == Live(table, window) + {key}
  {
    hide Reachable, DistinctKeys, Live, Keys, Cells, Table, Passed;
    var at := Find(table, window, key, home, home(key));
    if table[at].window == window { Member(table, window, at); }
    Claim(table, window, key, home, at);
    placed := table[at := KeySlot(window, key)];
  }

  /** Rehashes the current window's keys into a larger table; stale stamps are dropped. */
  method Grow(slots: seq<KeySlot>, hash: Key -> nat, capacity: nat, window: nat, ghost distinct: nat)
    returns (grown: seq<KeySlot>)
    requires Holds(slots, hash, window, distinct) && |slots| < capacity && 512 <= capacity <= 4 * MAX_TRANSITION_SLOTS
    requires distinct * 2 <= capacity
    ensures Holds(grown, hash, window, distinct) && |grown| == capacity
    ensures Live(grown, window) == Live(slots, window)
  {
    hide Reachable, DistinctKeys, Masked, Holds, Live, Keys, Cells, Table, Passed, Blank, Homes;
    HoldsCount(slots, hash, window, distinct);
    HalfEmpty(distinct, capacity);
    grown := Blank(capacity);
    var home := Masked(hash, capacity);
    NoLiveKeys(grown, window, home);
    NoLivePrefix(slots, window);
    var index := 0;
    while index < |slots|
      invariant index <= |slots| && |grown| == capacity
      invariant forall i :: 0 <= i < capacity ==> grown[i].window <= window
      invariant Table(Cells(grown, window), home)
      invariant Live(grown, window) == Live(slots[..index], window)
    {
      PrefixStep(slots, hash, window, distinct, index);
      if slots[index].window == window {
        grown := Place(grown, window, slots[index].key, home);
      }
      index := index + 1;
    }
    assert slots[..index] == slots;
    GrownHolds(grown, hash, window, distinct);
  }

  lemma GrownHolds(grown: seq<KeySlot>, hash: Key -> nat, window: nat, distinct: nat)
    requires 0 < window && 512 <= |grown| <= 4 * MAX_TRANSITION_SLOTS && distinct * 2 <= |grown|
    requires forall i :: 0 <= i < |grown| ==> grown[i].window <= window
    requires Table(Cells(grown, window), Masked(hash, |grown|)) && distinct == |Live(grown, window)|
    ensures Holds(grown, hash, window, distinct)
  {
  }

  /**
  The set interface: insertion fails exactly when the key is already there or
  the window holds 2^20 rows; growth loses no key and stale windows are invisible.
  */
  method Remember(slots: seq<KeySlot>, hash: Key -> nat, window: nat, distinct: nat, key: Key)
    returns (ok: bool, after: seq<KeySlot>)
    requires Holds(slots, hash, window, distinct)
    ensures ok <==> distinct < MAX_TRANSITION_SLOTS && key !in Live(slots, window)
    ensures Holds(after, hash, window, if ok then distinct + 1 else distinct)
    ensures Live(after, window) == Live(slots, window) + if ok then {key} else {}
  {
    hide Reachable, DistinctKeys, Masked, Keys, Passed;
    after := slots;
    if distinct >= MAX_TRANSITION_SLOTS { return false, after; }
    if |slots| == 0 || (distinct + 1) * 2 > |slots| {
      after := Grow(slots, hash, if |slots| == 0 then 512 else |slots| * 2, window, distinct);
    }
    ok, after := Insert(after, hash, window, distinct, key);
  }

  /** The probe that finds the key or claims the first free slot for it. */
  method Insert(slots: seq<KeySlot>, hash: Key -> nat, window: nat, distinct: nat, key: Key)
    returns (ok: bool, after: seq<KeySlot>)
    requires Holds(slots, hash, window, distinct) && 0 < |slots| && (distinct + 1) * 2 <= |slots|
    requires distinct < MAX_TRANSITION_SLOTS
    ensures ok <==> key !in Live(slots, window)
    ensures Holds(after, hash, window, if ok then distinct + 1 else distinct)
    ensures Live(after, window) == Live(slots, window) + if ok then {key} else {}
  {
    hide Reachable, DistinctKeys, Masked, Keys, Passed;
    after := slots;
    var home := Masked(hash, |after|);
    var at := Find(after, window, key, home, home(key));
    if after[at].window == window {
      Member(after, window, at);
      return false, after;
    }
    Claim(after, window, key, home, at);
    after := after[at := KeySlot(window, key)];
    return true, after;
  }
}
