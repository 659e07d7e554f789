/**
The reader over several endpoints: one thread per worker hands its batches to
the consumer through a single slot, and the consumer takes filled slots in
rotation. All interleavings of the threads, failures and `close` are covered.
*/
module Readers {
  import opened Words

  type Batch = nat

  /** A reader thread: reading its pool, waiting with a batch, handling an error, leaving, gone. */
  datatype Thread = Reading | Handing(batch: Batch) | Raising | Leaving | Gone

  datatype Ending = Active | Clean | Failed | Closed

  /** `produced` records what each pool yielded, `delivered` what the consumer received. */
  datatype Pool = Pool(
    slots: seq<Option<Batch>>, finished: seq<bool>, threads: seq<Thread>, failure: Option<nat>, closed: bool,
    next: nat, ending: Ending, produced: seq<seq<Batch>>, delivered: seq<(nat, Batch)>)

  datatype Event =
    | Yield(worker: nat, batch: Batch)   // the worker's pool yields a batch
    | Store(worker: nat) | EndOfPool(worker: nat) | Raise(worker: nat) | Report(worker: nat) | Leave(worker: nat)
    | Take                               // one turn of the consumer
    | Close

  /** The slot `offset` places after `next`, going around. */
  function Around(next: nat, offset: nat, size: nat): (w: nat)
    requires next < size && offset <= size
    ensures w < size && w == (next + offset) % size
  {
    if next + offset < size then next + offset else Wraps(next + offset, size); next + offset - size
  }

  lemma Wraps(x: nat, size: nat)
    requires size <= x < 2 * size
    ensures x % size == x - size
  {
  }

  function After(w: nat, size: nat): nat
    requires w < size
  {
    if w + 1 < size then w + 1 else 0
  }

  /** How many places the rotation is before slot `w`. */
  function Distance(next: nat, w: nat, size: nat): (d: nat)
    requires next < size && w < size
    ensures d < size && Around(next, d, size) == w
  {
    if w >= next then w - next else w + size - next
  }

  /** The first filled slot in rotation order, as its offset from `next`; the size if none is filled. */
  function FirstFilled(slots: seq<Option<Batch>>, next: nat, offset: nat): (k: nat)
    requires next < |slots| && offset <= |slots|
    ensures offset <= k <= |slots|
    ensures k < |slots| ==> slots[Around(next, k, |slots|)].Some?
    ensures forall j :: offset <= j < k ==> slots[Around(next, j, |slots|)].None?
    decreases |slots| - offset
  {
    if offset == |slots| || slots[Around(next, offset, |slots|)].Some? then offset
    else FirstFilled(slots, next, offset + 1)
  }

  /** The condition the consumer waits for. */
  predicate Wakes(p: Pool) {
    p.closed || p.failure.Some? || (exists i :: 0 <= i < |p.slots| && p.slots[i].Some?) || false !in p.finished
  }

  /** `close`: no slot is read or filled any more. */
  function Shut(p: Pool): Pool {
    p.(closed := true, slots := seq(|p.slots|, _ => None))
  }

  function TakeStep(p: Pool): Option<Pool>
    requires p.next < |p.slots|
  {
    if p.ending != Active || !Wakes(p) then None
    else if p.failure.Some? then Some(Shut(p).(ending := Failed))
    else if p.closed then Some(Shut(p).(ending := Closed))
    else
      var k := FirstFilled(p.slots, p.next, 0);
      if k == |p.slots| then Some(Shut(p).(ending := Clean))
      else
        var w := Around(p.next, k, |p.slots|);
        Some(p.(slots := p.slots[w := None], next := After(w, |p.slots|),
                delivered := p.delivered + [(w, p.slots[w].value)]))
  }

  function ThreadStep(p: Pool, e: Event): Option<Pool>
    requires !e.Take? && !e.Close? && e.worker < |p.slots| == |p.finished| == |p.threads| == |p.produced|
  {
    var w := e.worker;
    var t := p.threads[w];
    match e
    case Yield(_, batch) =>
      if t != Reading then None
      else Some(p.(threads := p.threads[w := Handing(batch)], produced := p.produced[w := p.produced[w] + [batch]]))
    case Store(_) =>
      if !t.Handing? || !(p.closed || p.slots[w].None?) then None
      else if p.closed then Some(p.(threads := p.threads[w := Leaving]))
      else Some(p.(slots := p.slots[w := Some(t.batch)], threads := p.threads[w := Reading]))
    case EndOfPool(_) => if t != Reading then None else Some(p.(threads := p.threads[w := Leaving]))
    case Raise(_) => if t != Reading then None else Some(p.(threads := p.threads[w := Raising]))
    case Report(_) =>
      if t != Raising then None
      else Some(p.(threads := p.threads[w := Leaving],
                   failure := if !p.closed && p.failure.None? then Some(w) else p.failure))
    case _ =>
      if t != Leaving then None else Some(p.(threads := p.threads[w := Gone], finished := p.finished[w := true]))
  }

  predicate Shaped(p: Pool) {
    0 < |p.slots| == |p.finished| == |p.threads| == |p.produced| && p.next < |p.slots|
  }

  function Step(p: Pool, e: Event): Option<Pool>
    requires Shaped(p)
  {
    if e.Take? then TakeStep(p)
    else if e.Close? then Some(Shut(p))
    else if e.worker >= |p.slots| then None
    else ThreadStep(p, e)
  }

  function Run(p: Pool, events: seq<Event>): (r: Option<Pool>)
    requires Shaped(p)
    ensures r.Some? ==> Shaped(r.value)
  {
    if events == [] then Some(p)
    else
      match Run(p, events[..|events| - 1])
      case None => None
      case Some(q) =>
        StepShaped(q, events[|events| - 1]);
        Step(q, events[|events| - 1])
  }

  lemma StepShaped(p: Pool, e: Event)
    requires Shaped(p)
    ensures Step(p, e).Some? ==> Shaped(Step(p, e).value)
  {
  }

  // ---------------------------------------------------------------- nothing lost, order kept

  /** What the consumer received from one worker, in order. */
  function From(delivered: seq<(nat, Batch)>, w: nat): seq<Batch> {
    if delivered == [] then []
    else
      var last := delivered[|delivered| - 1];
      From(delivered[..|delivered| - 1], w) + if last.0 == w then [last.1] else []
  }

  function Waiting(slot: Option<Batch>, t: Thread): seq<Batch> {
    (if slot.Some? then [slot.value] else []) + if t.Handing? then [t.batch] else []
  }

  /** A worker's batches are delivered, in its slot or in its hands, in that order; only `close` drops one. */
  ghost predicate Kept(p: Pool, w: nat)
    requires Shaped(p) && w < |p.slots|
  {
    && From(p.delivered, w) <= p.produced[w]
    && (!p.closed ==> From(p.delivered, w) + Waiting(p.slots[w], p.threads[w]) == p.produced[w])
    && (p.finished[w] <==> p.threads[w] == Gone)
  }

  ghost predicate Inv(p: Pool) {
    && Shaped(p) && (p.ending != Active ==> p.closed)
    && (forall w :: 0 <= w < |p.slots| ==> Kept(p, w))
    && (p.ending == Clean
        ==> forall w :: 0 <= w < |p.slots| ==> From(p.delivered, w) == p.produced[w] && p.threads[w] == Gone)
  }

  lemma FromAppend(delivered: seq<(nat, Batch)>, d: (nat, Batch), w: nat)
    ensures From(delivered + [d], w) == From(delivered, w) + if d.0 == w then [d.1] else []
  {
    assert (delivered + [d])[..|delivered|] == delivered;
  }

  /** Steps of the reader threads. */
  lemma ThreadKeeps(p: Pool, e: Event)
    requires Inv(p) && !e.Take? && !e.Close? && e.worker < |p.slots|
    ensures var r := ThreadStep(p, e); r.Some? ==> Inv(r.value) && r.value.delivered == p.delivered
  {
    hide From;
    var r := ThreadStep(p, e);
    if r.Some? {
      var q, w := r.value, e.worker;
      assert Kept(p, w);
      ThreadKept(p, e, q);
      forall v | 0 <= v < |p.slots| && v != w ensures Kept(q, v) { assert Kept(p, v); }
    }
  }

  lemma ThreadKept(p: Pool, e: Event, q: Pool)
    requires Shaped(p) && !e.Take? && !e.Close? && e.worker < |p.slots| && Kept(p, e.worker)
    requires ThreadStep(p, e) == Some(q)
    ensures Kept(q, e.worker)
  {
    hide From;
    var w := e.worker;
    var got := From(p.delivered, w);
    if e.Yield? {
      assert got + Waiting(p.slots[w], p.threads[w]) + [e.batch] == got + Waiting(q.slots[w], q.threads[w]);
    }
  }

  lemma CloseKeeps(p: Pool)
    requires Inv(p)
    ensures Inv(Shut(p))
  {
    hide From;
    forall w | 0 <= w < |p.slots| ensures Kept(Shut(p), w) { assert Kept(p, w); }
  }

  /** One turn of the consumer: a delivery takes the oldest batch of its worker. */
  lemma TakeKeeps(p: Pool)
    requires Inv(p)
    ensures var r := TakeStep(p); r.Some? ==> Inv(r.value)
  {
    hide From;
    var r := TakeStep(p);
    if r.Some? {
      CloseKeeps(p);
      var q := r.value;
      if p.failure.None? && !p.closed {
        var k := FirstFilled(p.slots, p.next, 0);
        if k == |p.slots| {
          CleanEnd(p);
          EndKeeps(Shut(p), Clean);
        } else {
          var w := Around(p.next, k, |p.slots|);
          forall v | 0 <= v < |p.slots| ensures Kept(q, v) {
            assert Kept(p, v);
            FromAppend(p.delivered, (w, p.slots[w].value), v);
          }
        }
      } else {
        EndKeeps(Shut(p), q.ending);
      }
    }
  }

  lemma EndKeeps(p: Pool, ending: Ending)
    requires Inv(p) && p.closed
    requires ending == Clean
             ==> forall w :: 0 <= w < |p.slots| ==> From(p.delivered, w) == p.produced[w] && p.threads[w] == Gone
    ensures Inv(p.(ending := ending))
  {
    hide From;
    forall w | 0 <= w < |p.slots| ensures Kept(p.(ending := ending), w) { assert Kept(p, w); }
  }

  /** The consumer ends cleanly only when every thread is gone and every slot is empty: nothing is missing. */
  lemma CleanEnd(p: Pool)
    requires Inv(p) && Wakes(p) && p.failure.None? && !p.closed && FirstFilled(p.slots, p.next, 0) == |p.slots|
    ensures forall w :: 0 <= w < |p.slots|
                        ==> p.slots[w].None? && p.threads[w] == Gone && From(p.delivered, w) == p.produced[w]
  {
    hide From;
    forall w | 0 <= w < |p.slots| ensures p.slots[w].None? {
      assert p.slots[Around(p.next, Distance(p.next, w, |p.slots|), |p.slots|)].None?;
    }
    forall w | 0 <= w < |p.slots| ensures p.threads[w] == Gone && From(p.delivered, w) == p.produced[w] {
      assert Kept(p, w) && p.finished[w];
      assert From(p.delivered, w) + [] == From(p.delivered, w);
    }
  }

  lemma StepKeeps(p: Pool, e: Event)
    requires Inv(p)
    ensures Step(p, e).Some? ==> Inv(Step(p, e).value)
  {
    hide Inv, ThreadStep, TakeStep, Shut;
    if e.Take? { TakeKeeps(p); }
    else if e.Close? { CloseKeeps(p); }
    else if e.worker < |p.slots| { ThreadKeeps(p, e); }
  }

  /** In every run each worker's deliveries are a prefix of what it produced; after a clean end they are all of it. */
  lemma {:induction false} RunKeeps(p: Pool, events: seq<Event>)
    requires Inv(p)
    ensures Run(p, events).Some? ==> Inv(Run(p, events).value)
  {
    hide Step, Kept;
    if events == [] {
    } else {
      RunKeeps(p, events[..|events| - 1]);
      var q := Run(p, events[..|events| - 1]);
      if q.Some? {
        hide Inv;
        StepKeeps(q.value, events[|events| - 1]);
      }
    }
  }

  lemma StartInv(workers: nat)
    requires workers > 0
    ensures Inv(Pool(seq(workers, _ => None), seq(workers, _ => false), seq(workers, _ => Reading), None, false, 0,
                     Active,
                     seq(workers, _ => []), []))
  {
  }

  // ---------------------------------------------------------------- fairness

  /** Taking another worker's batch brings the rotation strictly closer to a filled slot. */
  lemma TakeApproaches(p: Pool, w: nat)
    requires Shaped(p) && w < |p.slots| && p.slots[w].Some? && TakeStep(p).Some?
    ensures var q := TakeStep(p).value;
      q.ending == Active ==>
        && |q.delivered| == |p.delivered| + 1 && |q.slots| == |p.slots| && q.next < |q.slots|
        && (q.delivered[|p.delivered|].0 == w ||
              (q.slots[w] == p.slots[w] && Distance(q.next, w, |q.slots|) < Distance(p.next, w, |p.slots|)))
  {
    var n := |p.slots|;
    var d, k := Distance(p.next, w, n), FirstFilled(p.slots, p.next, 0);
    assert p.slots[Around(p.next, d, n)].Some?;
    assert k <= d;
  }

  lemma StoreWaits(p: Pool, e: Event, w: nat)
    requires Shaped(p) && w < |p.slots| && p.slots[w].Some? && !e.Take? && Step(p, e).Some?
    ensures var q := Step(p, e).value;
      && q.delivered == p.delivered && q.next == p.next && |q.slots| == |p.slots|
      && (!q.closed ==> q.slots[w] == p.slots[w])
  {
  }

  /**
   * A filled slot waits for at most N - 1 deliveries of other workers: as long as
   * it has not been taken and the reader has not ended, no more than its distance
   * in the rotation have been made.
   */
  lemma {:induction false} Fairness(p: Pool, events: seq<Event>, w: nat)
    requires Shaped(p) && w < |p.slots| && p.slots[w].Some? && Run(p, events).Some?
    requires var q := Run(p, events).value;
      q.ending == Active && !q.closed && forall i :: |p.delivered| <= i < |q.delivered| ==> q.delivered[i].0 != w
    ensures var q := Run(p, events).value;
      && |q.slots| == |p.slots| && q.slots[w] == p.slots[w] && p.delivered <= q.delivered
      && |q.delivered| - |p.delivered| + Distance(q.next, w, |q.slots|)
         <= Distance(p.next, w, |p.slots|) <= |p.slots| - 1
  {
    hide Step, Distance;
    if events == [] {
    } else {
      var front, e := events[..|events| - 1], events[|events| - 1];
      var m := Run(p, front).value;
      var q := Run(p, events).value;
      StepGrows(m, e);
      Fairness(p, front, w);
      if e.Take? {
        TakeIs(m);
        TakeApproaches(m, w);
      } else {
        StoreWaits(m, e, w);
      }
    }
  }

  lemma TakeIs(p: Pool)
    requires Shaped(p)
    ensures Step(p, Take) == TakeStep(p)
  {
  }

  lemma StepGrows(p: Pool, e: Event)
    requires Shaped(p) && Step(p, e).Some?
    ensures var q := Step(p, e).value;
      p.delivered <= q.delivered && (p.closed ==> q.closed) && (q.ending == Active ==> p.ending == Active)
  {
  }
}
