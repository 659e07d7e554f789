/**
Linear probing over a ring of cells, shared by the reducer's count table and by
the validator's duplicate detector. Nothing here depends on the hash: `home`
is an arbitrary function into the ring.
*/
module Probe {

  datatype Cell<+K> = Free | Used(key: K)

  /** Steps needed to walk forward from `a` to `b` on a ring of `n` cells. */
  function Distance(a: nat, b: nat, n: nat): nat
    requires a < n && b < n
  {
    if a <= b then b - a else b + n - a
  }

  /** The masked increment of the source, `(index + 1) & (n - 1)`. */
  function Next(index: nat, n: nat): (r: nat)
    requires index < n
    ensures r == (if index + 1 == n then 0 else index + 1)
  {
    (index + 1) % n
  }

  ghost predicate Homes<K(!new)>(home: K -> nat, n: nat) {
    forall k :: home(k) < n
  }

  /** Every used cell can be reached from its key's home without crossing a free cell. */
  ghost predicate Reachable<K(!new)>(cells: seq<Cell<K>>, home: K -> nat)
    requires Homes(home, |cells|)
  {
    forall i, j :: 0 <= i < |cells| && 0 <= j < |cells| && cells[i].Used? &&
      Distance(home(cells[i].key), j, |cells|) < Distance(home(cells[i].key), i, |cells|)
      ==> cells[j].Used?
  }

  ghost predicate DistinctKeys<K>(cells: seq<Cell<K>>) {
    forall i, j :: 0 <= i < j < |cells| && cells[i].Used? && cells[j].Used? ==> cells[i].key != cells[j].key
  }

  ghost predicate Table<K(!new)>(cells: seq<Cell<K>>, home: K -> nat) {
    |cells| > 0 && Homes(home, |cells|) && Reachable(cells, home) && DistinctKeys(cells)
  }

  ghost function Keys<K>(cells: seq<Cell<K>>): set<K> {
    set i | 0 <= i < |cells| && cells[i].Used? :: cells[i].key
  }

  /** The first `steps` cells on the probe path of `k` are used by other keys. */
  ghost predicate Passed<K(!new)>(cells: seq<Cell<K>>, home: K -> nat, k: K, steps: nat)
    requires Homes(home, |cells|)
  {
    forall j :: 0 <= j < |cells| && Distance(home(k), j, |cells|) < steps ==> cells[j].Used? && cells[j].key != k
  }

  lemma PassedStep<K(!new)>(cells: seq<Cell<K>>, home: K -> nat, k: K, steps: nat, index: nat)
    requires Homes(home, |cells|) && Passed(cells, home, k, steps)
    requires index < |cells| && Distance(home(k), index, |cells|) == steps
    requires cells[index].Used? && cells[index].key != k
    ensures Passed(cells, home, k, steps + 1)
    ensures steps + 1 < |cells| ==> Distance(home(k), Next(index, |cells|), |cells|) == steps + 1
  {
    forall j | 0 <= j < |cells| && Distance(home(k), j, |cells|) < steps + 1
      ensures cells[j].Used? && cells[j].key != k
    {
      if Distance(home(k), j, |cells|) == steps {
        assert j == index;
      }
    }
  }

  /** A free cell on the probe path proves absence, and filling it keeps the table. */
  lemma FreeMeansAbsent<K(!new)>(cells: seq<Cell<K>>, home: K -> nat, k: K, index: nat)
    requires Table(cells, home)
    requires index < |cells| && cells[index].Free?
    requires Passed(cells, home, k, Distance(home(k), index, |cells|))
    ensures k !in Keys(cells)
    ensures Table(cells[index := Used(k)], home)
    ensures Keys(cells[index := Used(k)]) == Keys(cells) + {k}
  {
    forall i | 0 <= i < |cells| && cells[i].Used?
      ensures cells[i].key != k
    {
      // Otherwise the key's own path would cross the free cell.
      assert i != index;
    }
    var filled := cells[index := Used(k)];
    forall i, j | 0 <= i < |filled| && 0 <= j < |filled| && filled[i].Used? &&
      Distance(home(filled[i].key), j, |filled|) < Distance(home(filled[i].key), i, |filled|)
      ensures filled[j].Used?
    {
      if i != index { assert cells[i].Used?; }
    }
    forall x | x in Keys(cells) + {k}
      ensures x in Keys(filled)
    {
      if x == k {
        assert filled[index].key == x;
      } else {
        var i :| 0 <= i < |cells| && cells[i].Used? && cells[i].key == x;
        assert filled[i].key == x;
      }
    }
  }

  /** A probe that walked the whole ring shows a full table without the key. */
  lemma PassedAll<K(!new)>(cells: seq<Cell<K>>, home: K -> nat, k: K)
    requires Table(cells, home) && Passed(cells, home, k, |cells|)
    ensures forall j :: 0 <= j < |cells| ==> cells[j].Used?
    ensures k !in Keys(cells)
  {
    forall j | 0 <= j < |cells|
      ensures cells[j].Used? && cells[j].key != k
    {
      assert Distance(home(k), j, |cells|) < |cells|;
    }
  }

  /** A full table with distinct keys holds as many keys as cells. */
  lemma {:induction false} FullCount<K(!new)>(cells: seq<Cell<K>>)
    requires DistinctKeys(cells)
    requires forall j :: 0 <= j < |cells| ==> cells[j].Used?
    ensures |Keys(cells)| == |cells|
  {
    if |cells| > 0 {
      var last := |cells| - 1;
      var front := cells[..last];
      FullCount(front);
      assert forall i :: 0 <= i < last ==> front[i] == cells[i];
      assert cells[last].key !in Keys(front);
      assert Keys(cells) == Keys(front) + {cells[last].key} by {
        forall x | x in Keys(cells)
          ensures x in Keys(front) + {cells[last].key}
        {
          var i :| 0 <= i < |cells| && cells[i].Used? && cells[i].key == x;
          if i < last { assert front[i].key == x; }
        }
        forall x | x in Keys(front)
          ensures x in Keys(cells)
        {
          var i :| 0 <= i < |front| && front[i].Used? && front[i].key == x;
          assert cells[i].key == x;
        }
        assert cells[last].key in Keys(cells);
      }
    } else {
      assert Keys(cells) == {};
    }
  }

  ghost function Below(n: nat): (s: set<nat>)
    ensures |s| == n && forall p: nat :: p in s <==> p < n
  {
    if n == 0 then {} else Below(n - 1) + {n - 1}
  }

  ghost function Image(positions: seq<nat>): (s: set<nat>)
    ensures forall p :: p in s <==> p in positions
  {
    set p | p in positions
  }

  /** Distinct positions below `n` number at most `n`; one missing position leaves room. */
  lemma {:induction false} Pigeonhole(positions: seq<nat>, n: nat)
    requires forall i :: 0 <= i < |positions| ==> positions[i] < n
    requires forall i, j :: 0 <= i < j < |positions| ==> positions[i] != positions[j]
    ensures |positions| <= n
    ensures (exists p: nat :: p < n && p !in positions) ==> |positions| < n
    ensures (forall p: nat :: p < n ==> p in positions) ==> |positions| == n
  {
    ImageSize(positions);
    SubsetSize(Image(positions), Below(n));
    if p: nat :| p < n && p !in positions {
      SubsetSize(Image(positions), Below(n) - {p});
    }
    if forall p: nat :: p < n ==> p in positions {
      assert Image(positions) == Below(n);
    }
  }

  lemma {:induction false} ImageSize(positions: seq<nat>)
    requires forall i, j :: 0 <= i < j < |positions| ==> positions[i] != positions[j]
    ensures |Image(positions)| == |positions|
  {
    if |positions| > 0 {
      var last := |positions| - 1;
      ImageSize(positions[..last]);
      assert positions == positions[..last] + [positions[last]];
      assert Image(positions) == Image(positions[..last]) + {positions[last]};
    }
  }

  lemma SubsetSize<T>(a: set<T>, b: set<T>)
    requires a <= b
    ensures |a| <= |b|
  {
    assert b == a + (b - a);
  }
}
