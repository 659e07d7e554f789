/**
What a bounded transition reduction means, stated on the blocks alone: adjacent
pairs, the first `capacity` distinct ones in first-occurrence order, and exact
counts. No table, no hash and no window appears here.
*/
module Transitions {
  import opened Words

  /** The bound on slots over all sources. */
  const MAX_TRANSITION_SLOTS: nat := 0x10_0000

  datatype Pair = Pair(from: u64, dest: u64)
  datatype Row = Row(pair: Pair, count: nat)

  /** Adjacent pairs of the blocks one vCPU entered. */
  function Pairs(blocks: seq<u64>): (ps: seq<Pair>)
    ensures |ps| == if |blocks| == 0 then 0 else |blocks| - 1
    ensures forall i :: 0 <= i < |ps| ==> ps[i] == Pair(blocks[i], blocks[i + 1])
  {
    if |blocks| < 2 then []
    else Pairs(blocks[..|blocks| - 1]) + [Pair(blocks[|blocks| - 2], blocks[|blocks| - 1])]
  }

  lemma PairsStep(blocks: seq<u64>, address: u64)
    requires blocks != []
    ensures Pairs(blocks + [address]) == Pairs(blocks) + [Pair(blocks[|blocks| - 1], address)]
  {
    assert (blocks + [address])[..|blocks|] == blocks;
  }

  /** The distinct pairs, in the order in which they first occur. */
  function Firsts(ps: seq<Pair>): seq<Pair> {
    if ps == [] then []
    else
      var rest, q := Firsts(ps[..|ps| - 1]), ps[|ps| - 1];
      if q in rest then rest else rest + [q]
  }

  /** Index of the first occurrence of `q`. */
  function FirstAt(ps: seq<Pair>, q: Pair): (i: nat)
    requires q in ps
    ensures i < |ps| && ps[i] == q && forall j :: 0 <= j < i ==> ps[j] != q
  {
    if ps[0] == q then 0 else 1 + FirstAt(ps[1..], q)
  }

  function Retained(ps: seq<Pair>, capacity: nat): seq<Pair> {
    Firsts(ps)[..Min(capacity, |Firsts(ps)|)]
  }

  function Rows(ps: seq<Pair>, capacity: nat): seq<Row> {
    seq(|Retained(ps, capacity)|, i requires 0 <= i < |Retained(ps, capacity)| =>
      Row(Retained(ps, capacity)[i], multiset(ps)[Retained(ps, capacity)[i]]))
  }

  /** Occurrences of pairs outside `kept`. */
  function Missed(ps: seq<Pair>, kept: seq<Pair>): (n: nat)
    ensures n <= |ps|
  {
    if ps == [] then 0
    else Missed(ps[..|ps| - 1], kept) + if ps[|ps| - 1] in kept then 0 else 1
  }

  /** Occurrences that did not fit the table. */
  function Overflow(ps: seq<Pair>, capacity: nat): (n: nat)
    ensures n <= |ps|
  {
    Missed(ps, Retained(ps, capacity))
  }

  function SumCounts(rows: seq<Row>): nat {
    if rows == [] then 0 else SumCounts(rows[..|rows| - 1]) + rows[|rows| - 1].count
  }

  ghost predicate Distinct<T>(s: seq<T>) {
    forall i, j :: 0 <= i < j < |s| ==> s[i] != s[j]
  }

  /** `Firsts` is what its name says: no repeats, nothing lost, first-occurrence order. */
  lemma {:induction false} FirstsAreFirsts(ps: seq<Pair>)
    ensures Distinct(Firsts(ps))
    ensures forall q :: q in Firsts(ps) <==> q in ps
    ensures forall i, j :: 0 <= i < j < |Firsts(ps)| ==> FirstAt(ps, Firsts(ps)[i]) < FirstAt(ps, Firsts(ps)[j])
  {
    if ps == [] {
    } else {
      var front, q := ps[..|ps| - 1], ps[|ps| - 1];
      FirstsAreFirsts(front);
      assert ps == front + [q];
      forall p | p in front ensures FirstAt(ps, p) == FirstAt(front, p) {
        var a, b := FirstAt(ps, p), FirstAt(front, p);
        assert ps[b] == p && front[b] == p;
        assert a < |front| ==> front[a] == p;
      }
      forall i, j | 0 <= i < j < |Firsts(ps)|
        ensures FirstAt(ps, Firsts(ps)[i]) < FirstAt(ps, Firsts(ps)[j])
      {
        assert Firsts(ps)[i] == Firsts(front)[i] && Firsts(ps)[i] in front;
        if j == |Firsts(front)| {
          assert Firsts(ps)[j] == q && q !in front;
          assert FirstAt(ps, q) >= |front|;
        } else {
          assert Firsts(ps)[j] == Firsts(front)[j] && Firsts(ps)[j] in front;
        }
      }
    }
  }

  lemma RetainedDistinct(ps: seq<Pair>, capacity: nat)
    ensures Distinct(Retained(ps, capacity))
    ensures forall q :: q in Retained(ps, capacity) ==> q in ps
    ensures |Retained(ps, capacity)| == Min(capacity, |Firsts(ps)|)
  {
    FirstsAreFirsts(ps);
    forall q | q in Retained(ps, capacity) ensures q in ps { assert q in Firsts(ps); }
  }

  /** One more pair: kept if it fits, and the kept prefix never changes once full. */
  lemma RetainedStep(ps: seq<Pair>, q: Pair, capacity: nat)
    ensures Retained(ps + [q], capacity) ==
      if q in Retained(ps, capacity) || |Retained(ps, capacity)| == capacity then Retained(ps, capacity)
      else Retained(ps, capacity) + [q]
    ensures q !in Retained(ps, capacity) && |Retained(ps, capacity)| < capacity ==> q !in ps
  {
    FirstsAreFirsts(ps);
    assert (ps + [q])[..|ps|] == ps;
    if q in Retained(ps, capacity) {
      assert q in Firsts(ps);
    } else if |Retained(ps, capacity)| < capacity {
      assert Retained(ps, capacity) == Firsts(ps);
    }
  }

  lemma MissedStep(ps: seq<Pair>, q: Pair, kept: seq<Pair>)
    ensures Missed(ps + [q], kept) == Missed(ps, kept) + if q in kept then 0 else 1
  {
    assert (ps + [q])[..|ps|] == ps;
  }

  /** Keeping a pair that never occurred changes nothing about the past. */
  lemma {:induction false} MissedExtend(ps: seq<Pair>, kept: seq<Pair>, q: Pair)
    requires q !in ps
    ensures Missed(ps, kept + [q]) == Missed(ps, kept)
  {
    if ps == [] {
    } else {
      MissedExtend(ps[..|ps| - 1], kept, q);
      assert ps[|ps| - 1] in ps;
    }
  }

  /** Occurrences of the kept pairs. */
  function Occurrences(ps: seq<Pair>, kept: seq<Pair>): nat {
    if kept == [] then 0 else Occurrences(ps, kept[..|kept| - 1]) + multiset(ps)[kept[|kept| - 1]]
  }

  lemma {:induction false} OccurrencesStep(ps: seq<Pair>, q: Pair, kept: seq<Pair>)
    requires Distinct(kept)
    ensures Occurrences(ps + [q], kept) == Occurrences(ps, kept) + if q in kept then 1 else 0
  {
    if kept == [] {
    } else {
      OccurrencesStep(ps, q, kept[..|kept| - 1]);
      assert kept == kept[..|kept| - 1] + [kept[|kept| - 1]];
      assert multiset(ps + [q]) == multiset(ps) + multiset{q};
    }
  }

  lemma {:induction false} Split(ps: seq<Pair>, kept: seq<Pair>)
    requires Distinct(kept)
    ensures Occurrences(ps, kept) + Missed(ps, kept) == |ps|
  {
    if ps == [] {
      NoOccurrences(kept);
    } else {
      var front, q := ps[..|ps| - 1], ps[|ps| - 1];
      Split(front, kept);
      assert ps == front + [q];
      OccurrencesStep(front, q, kept);
    }
  }

  lemma {:induction false} NoOccurrences(kept: seq<Pair>)
    ensures Occurrences([], kept) == 0
  {
    if kept != [] { NoOccurrences(kept[..|kept| - 1]); }
  }

  lemma {:induction false} SumIsOccurrences(ps: seq<Pair>, kept: seq<Pair>, rows: seq<Row>)
    requires |rows| == |kept|
    requires forall i :: 0 <= i < |rows| ==> rows[i] == Row(kept[i], multiset(ps)[kept[i]])
    ensures SumCounts(rows) == Occurrences(ps, kept)
  {
    if rows != [] { SumIsOccurrences(ps, kept[..|kept| - 1], rows[..|rows| - 1]); }
  }

  /** Conservation: every observed transition is either in a row or in the overflow count. */
  lemma Conservation(ps: seq<Pair>, capacity: nat)
    ensures SumCounts(Rows(ps, capacity)) + Overflow(ps, capacity) == |ps|
    ensures forall i :: 0 <= i < |Rows(ps, capacity)| ==> 1 <= Rows(ps, capacity)[i].count <= |ps|
    ensures |Firsts(ps)| <= capacity ==> Overflow(ps, capacity) == 0
  {
    RetainedDistinct(ps, capacity);
    Split(ps, Retained(ps, capacity));
    SumIsOccurrences(ps, Retained(ps, capacity), Rows(ps, capacity));
    forall i | 0 <= i < |Rows(ps, capacity)| ensures 1 <= Rows(ps, capacity)[i].count <= |ps| {
      assert Retained(ps, capacity)[i] in ps;
      CountBound(ps, Retained(ps, capacity)[i]);
    }
    if |Firsts(ps)| <= capacity {
      assert Retained(ps, capacity) == Firsts(ps);
      FirstsAreFirsts(ps);
      NothingMissed(ps, Firsts(ps));
    }
  }

  lemma {:induction false} CountBound(ps: seq<Pair>, q: Pair)
    ensures multiset(ps)[q] <= |ps|
  {
    if ps == [] {
    } else {
      CountBound(ps[..|ps| - 1], q);
      assert ps == ps[..|ps| - 1] + [ps[|ps| - 1]];
    }
  }

  lemma {:induction false} NothingMissed(ps: seq<Pair>, kept: seq<Pair>)
    requires forall q :: q in ps ==> q in kept
    ensures Missed(ps, kept) == 0
  {
    if ps == [] {
    } else {
      forall q | q in ps[..|ps| - 1] ensures q in kept { assert q in ps; }
      NothingMissed(ps[..|ps| - 1], kept);
    }
  }
}
