/**
The one-time context latch, the relation of a vCPU's paging root to it, and the
memory counts kept under each policy.
*/
module ContextFilters {
  import opened Words

  datatype Policy = Drop | Keep
  datatype Relation = Unknown | Matching | Foreign
  datatype Latch = Waiting | Writing | Known | Unreadable

  datatype Counts = Counts(kept: nat, dropped: nat, matching: nat, foreign: nat, unknown: nat)

  const NO_COUNTS: Counts := Counts(0, 0, 0, 0, 0)

  /** What the filter remembers; the fields after `latch` mean something once it is set. */
  datatype Filter = Filter(policy: Policy, latch: Latch, source: nat, gate: nat, cr3: nat, root: nat)

  function PagingRoot(cr3: nat): nat {
    cr3 - cr3 % 4096
  }

  /** What `latch` stores once it owns the latch. */
  function Latched(f: Filter, source: nat, gate: nat, cr3: nat, known: bool): Filter {
    Filter(f.policy, if known then Known else Unreadable, source, gate, cr3, PagingRoot(cr3))
  }

  function RelationOf(f: Filter, cr3: nat, known: bool): Relation {
    if !known || f.latch != Known then Unknown
    else if PagingRoot(cr3) == f.root then Matching
    else Foreign
  }

  predicate Admits(policy: Policy, relation: Relation) {
    relation == Matching || policy == Keep
  }

  /** Adds `count` accesses under a relation; fails when a counter would leave 64 bits. */
  function Account(policy: Policy, k: Counts, relation: Relation, count: nat): Option<Counts> {
    var related := match relation case Matching => k.matching case Foreign => k.foreign case Unknown => k.unknown;
    var decided := if Admits(policy, relation) then k.kept else k.dropped;
    if related + count > MAX64 || decided + count > MAX64 then None
    else
      var j := if Admits(policy, relation) then k.(kept := k.kept + count) else k.(dropped := k.dropped + count);
      match relation
      case Matching => Some(j.(matching := k.matching + count))
      case Foreign => Some(j.(foreign := k.foreign + count))
      case Unknown => Some(j.(unknown := k.unknown + count))
  }

  function AddCounts(a: Counts, b: Counts): Option<Counts> {
    if a.kept + b.kept > MAX64 || a.dropped + b.dropped > MAX64 || a.matching + b.matching > MAX64 ||
       a.foreign + b.foreign > MAX64 || a.unknown + b.unknown > MAX64
    then None
    else Some(Counts(a.kept + b.kept, a.dropped + b.dropped, a.matching + b.matching, a.foreign + b.foreign,
                     a.unknown + b.unknown))
  }

  /** The policy equations: every access has one decision and one relation, and the policy ties them. */
  predicate Balanced(policy: Policy, k: Counts) {
    && k.kept + k.dropped == k.matching + k.foreign + k.unknown
    && (policy == Drop ==> k.kept == k.matching && k.dropped == k.foreign + k.unknown)
    && (policy == Keep ==> k.dropped == 0)
  }

  /** Accounting keeps the equations, and grows `kept` exactly by what the policy admits. */
  lemma AccountBalances(policy: Policy, k: Counts, relation: Relation, count: nat)
    requires Balanced(policy, k)
    ensures var r := Account(policy, k, relation, count);
      r.Some? ==> Balanced(policy, r.value) && r.value.kept == k.kept + (if Admits(policy, relation) then count else 0)
  {
  }

  lemma SumBalances(policy: Policy, a: Counts, b: Counts)
    requires Balanced(policy, a) && Balanced(policy, b)
    ensures var r := AddCounts(a, b); r.Some? ==> Balanced(policy, r.value) && r.value.kept == a.kept + b.kept
  {
  }

  /** The filter as one object: `latch` succeeds once, and what it stored never changes. */
  class ContextFilter {
    var policy: Policy
    var latch: Latch
    var source: nat
    var gate: nat
    var cr3: nat
    var root: nat

    ghost function View(): Filter
      reads this
    {
      Filter(policy, latch, source, gate, cr3, root)
    }

    constructor ()
      ensures View() == Filter(Drop, Waiting, 0, 0, 0, 0)
    {
      policy, latch, source, gate, cr3, root := Drop, Waiting, 0, 0, 0, 0;
    }

    method Configure(policy: Policy)
      modifies this`policy
      ensures View() == old(View()).(policy := policy)
    {
      this.policy := policy;
    }

    method SetLatch(source: nat, gate: nat, cr3: nat, known: bool) returns (ok: bool)
      modifies this
      ensures ok <==> old(latch) == Waiting
      ensures View() == if ok then Latched(old(View()), source, gate, cr3, known) else old(View())
    {
      if latch != Waiting { return false; }
      latch := Writing;
      this.source := source;
      this.gate := gate;
      this.cr3 := cr3;
      root := cr3 - cr3 % 4096;
      latch := if known then Known else Unreadable;
      return true;
    }

    method Related(cr3: nat, known: bool) returns (relation: Relation)
      ensures relation == RelationOf(View(), cr3, known)
    {
      if latch == Writing { return Unknown; }
      if !known || latch != Known { return Unknown; }
      relation := if PagingRoot(cr3) == root then Matching else Foreign;
    }

    /** Both counters are checked before either is changed. */
    method AddTo(k: Counts, relation: Relation, count: nat) returns (ok: bool, after: Counts)
      requires k.kept <= MAX64 && k.dropped <= MAX64 && k.matching <= MAX64 && k.foreign <= MAX64 && k.unknown <= MAX64
      ensures ok <==> Account(policy, k, relation, count).Some?
      ensures after == if ok then Account(policy, k, relation, count).value else k
    {
      var admits := relation == Matching || policy == Keep;
      var related := if relation == Matching then k.matching else if relation == Foreign then k.foreign else k.unknown;
      var decided := if admits then k.kept else k.dropped;
      if related > MAX64 - count || decided > MAX64 - count { return false, k; }
      after := k;
      if relation == Matching { after := after.(matching := related + count); }
      else if relation == Foreign { after := after.(foreign := related + count); }
      else { after := after.(unknown := related + count); }
      if admits { after := after.(kept := decided + count); } else { after := after.(dropped := decided + count); }
      ok := true;
    }
  }
}
