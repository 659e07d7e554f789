/** The reader's critical sections, each run under the condition's lock, as one object. */
module EndpointReaders {
  import opened Words
  import opened Readers

  /** What one turn of the consumer's loop does. */
  datatype Turn = Delivers(worker: nat, batch: Batch) | Ends(ending: Ending)

  class Shared {
    var batches: seq<Option<Batch>>
    var finished: seq<bool>
    var failure: Option<nat>
    var closed: bool
    var next: nat

    /** The fields agree with the protocol state. */
    ghost predicate Shows(p: Pool)
      reads this
    {
      p.slots == batches && p.finished == finished && p.failure == failure && p.closed == closed && p.next == next
    }

    constructor (workers: nat)
      requires workers > 0
      ensures batches == seq(workers, _ => None) && finished == seq(workers, _ => false)
      ensures failure == None && !closed && next == 0
    {
      batches := seq(workers, _ => None);
      finished := seq(workers, _ => false);
      failure, closed, next := None, false, 0;
    }

    /** A reader thread's turn once the slot is free or the pool is closed. */
    method Put(worker: nat, batch: Batch, ghost p: Pool) returns (stored: bool)
      requires Shaped(p) && Shows(p) && worker < |batches| && p.threads[worker] == Handing(batch)
      requires closed || batches[worker].None?
      modifies this`batches
      ensures Step(p, Store(worker)).Some? && Shows(Step(p, Store(worker)).value) && stored == !closed
    {
      if closed { return false; }
      batches := batches[worker := Some(batch)];
      return true;
    }

    /** A reader thread's error is kept only if it is the first and the pool is still open. */
    method Fail(worker: nat, ghost p: Pool)
      requires Shaped(p) && Shows(p) && worker < |batches| && p.threads[worker] == Raising
      modifies this`failure
      ensures Step(p, Report(worker)).Some? && Shows(Step(p, Report(worker)).value)
    {
      if !closed && failure.None? { failure := Some(worker); }
    }

    method Finish(worker: nat, ghost p: Pool)
      requires Shaped(p) && Shows(p) && worker < |batches| && p.threads[worker] == Leaving
      modifies this`finished
      ensures Step(p, Leave(worker)).Some? && Shows(Step(p, Leave(worker)).value)
    {
      finished := finished[worker := true];
    }

    /** `close`: cancels everything that waits. */
    method Shutdown(ghost p: Pool)
      requires Shaped(p) && Shows(p)
      modifies this`closed, this`batches
      ensures Shows(Step(p, Close).value)
    {
      closed := true;
      batches := seq(|batches|, _ => None);
    }

    /** One turn of the consumer after its wait: the rotation's first filled slot, or the end. */
    method TakeTurn(ghost p: Pool) returns (turn: Turn)
      requires Shaped(p) && Shows(p) && p.ending == Active && Wakes(p)
      modifies this
      ensures TakeStep(p).Some? && Shows(TakeStep(p).value)
      ensures TakeStep(p).value.ending == (if turn.Ends? then turn.ending else Active)
      ensures TakeStep(p).value.delivered == p.delivered + if turn.Delivers? then [(turn.worker, turn.batch)] else []
      ensures turn.Ends? ==> turn.ending != Active
    {
      assert p.delivered + [] == p.delivered;
      if failure.Some? {
        Shutdown(p);
        return Ends(Failed);
      }
      if closed {
        Shutdown(p);
        return Ends(Closed);
      }
      ghost var first := FirstFilled(p.slots, p.next, 0);
      var offset := 0;
      while offset < |batches|
        invariant offset <= |batches| && Shows(p) && !closed && failure.None?
        invariant FirstFilled(p.slots, p.next, offset) == first
      {
        var worker := (next + offset) % |batches|;
        assert worker == Around(p.next, offset, |p.slots|);
        if batches[worker].Some? {
          var batch := batches[worker].value;
          batches := batches[worker := None];
          NextAround(worker, |p.slots|);
          next := (worker + 1) % |batches|;
          return Delivers(worker, batch);
        }
        offset := offset + 1;
      }
      Shutdown(p);
      return Ends(Clean);
    }
  }

  lemma NextAround(w: nat, size: nat)
    requires w < size
    ensures (w + 1) % size == After(w, size)
  {
    if w + 1 == size { assert size % size == 0; }
  }
}
