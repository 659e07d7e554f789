/**
The single-producer, single-consumer frame ring under every interleaving of the
two threads' atomic steps: cursor loads that may be stale when they are used,
byte-by-byte copies, and cursor stores.
*/
module FrameRing {
  import opened Words
  import opened Wrapping

  const MAX_FRAME: nat := 4096

  datatype Slot = Slot(size: nat, data: seq<byte>)

  /** Where the producer is inside `try_push`. */
  datatype Producer =
    | PIdle
    | PRead(frame: seq<byte>, write: nat)                  // its own cursor is loaded
    | PChecked(frame: seq<byte>, write: nat, read: nat)    // a copy of the other cursor is loaded
    | PCopying(frame: seq<byte>, write: nat, copied: nat)
    | PSized(frame: seq<byte>, write: nat)                 // bytes and length are in the slot

  /** Where the consumer is inside `front` and `pop`; `Holding` owns the view it got. */
  datatype Consumer =
    | CIdle
    | CFront(read: nat)                                    // its own cursor is loaded
    | CFrontSeen(read: nat, write: nat)                    // a copy of the other cursor is loaded
    | CFound(read: nat)                                    // the ring is not empty
    | Holding(read: nat, size: nat, taken: seq<byte>)
    | CPop(read: nat)
    | CPopSeen(read: nat, write: nat)
    | CAdvance(read: nat)

  /**
   * The ring and both threads. `pushed` and `popped` record what each completed
   * call put in or took out; the cursors are 64-bit.
   */
  datatype Ring = Ring(
    capacity: nat, slots: seq<Slot>, writePosition: nat, readPosition: nat,
    producer: Producer, consumer: Consumer,
    pushed: seq<seq<byte>>, popped: seq<seq<byte>>)

  datatype Event =
    | Push(frame: seq<byte>) | LoadRead | Decide | CopyByte | StoreSize | Publish
    | Front | LoadWrite | CheckFront | ReadSize | TakeByte | Pop | CheckPop | Advance

  predicate Pushable(frame: seq<byte>) {
    0 < |frame| <= MAX_FRAME
  }

  function SetSlot(r: Ring, i: nat, slot: Slot): Ring
    requires i < |r.slots|
  {
    r.(slots := r.slots[i := slot])
  }

  function ProducerStep(r: Ring, e: Event): Option<Ring>
    requires r.capacity == |r.slots| > 0
    requires forall i :: 0 <= i < |r.slots| ==> |r.slots[i].data| == MAX_FRAME
  {
    match (e, r.producer)
    case (Push(frame), PIdle) =>
      if Pushable(frame) then Some(r.(producer := PRead(frame, r.writePosition))) else Some(r)
    case (LoadRead, PRead(frame, write)) => Some(r.(producer := PChecked(frame, write, r.readPosition)))
    case (Decide, PChecked(frame, write, read)) =>
      if write <= MAX64 && read <= MAX64 && Minus(write, read) == r.capacity
      then Some(r.(producer := PIdle))
      else Some(r.(producer := PCopying(frame, write, 0)))
    case (CopyByte, PCopying(frame, write, copied)) =>
      if copied < |frame| && copied < MAX_FRAME then
        var i := write % r.capacity;
        Some(SetSlot(r, i, Slot(r.slots[i].size, r.slots[i].data[copied := frame[copied]])).(
               producer := PCopying(frame, write, copied + 1)))
      else None
    case (StoreSize, PCopying(frame, write, copied)) =>
      if copied == |frame| then
        var i := write % r.capacity;
        Some(SetSlot(r, i, Slot(|frame|, r.slots[i].data)).(producer := PSized(frame, write)))
      else None
    case (Publish, PSized(frame, write)) =>
      Some(r.(producer := PIdle, writePosition := Wrap(write + 1), pushed := r.pushed + [frame]))
    case _ => None
  }

  function ConsumerStep(r: Ring, e: Event): Option<Ring>
    requires r.capacity == |r.slots| > 0
    requires forall i :: 0 <= i < |r.slots| ==> |r.slots[i].data| == MAX_FRAME
  {
    match (e, r.consumer)
    case (Front, CIdle) => Some(r.(consumer := CFront(r.readPosition)))
    case (LoadWrite, CFront(read)) => Some(r.(consumer := CFrontSeen(read, r.writePosition)))
    case (LoadWrite, CPop(read)) => Some(r.(consumer := CPopSeen(read, r.writePosition)))
    case (CheckFront, CFrontSeen(read, write)) => Some(r.(consumer := if read == write then CIdle else CFound(read)))
    case (ReadSize, CFound(read)) =>
      Some(r.(consumer := Holding(read, r.slots[read % r.capacity].size, [])))
    case (TakeByte, Holding(read, size, taken)) =>
      if |taken| < size && |taken| < MAX_FRAME
      then Some(r.(consumer := Holding(read, size, taken + [r.slots[read % r.capacity].data[|taken|]])))
      else None
    case (Pop, CIdle) => Some(r.(consumer := CPop(r.readPosition)))
    case (Pop, Holding(_, _, _)) => Some(r.(consumer := CPop(r.readPosition)))
    case (CheckPop, CPopSeen(read, write)) => Some(r.(consumer := if read == write then CIdle else CAdvance(read)))
    case (Advance, CAdvance(read)) =>
      var slot := r.slots[read % r.capacity];
      Some(r.(consumer := CIdle, readPosition := Wrap(read + 1),
              popped := r.popped + [if slot.size <= MAX_FRAME then slot.data[..slot.size] else []]))
    case _ => None
  }

  predicate ByProducer(e: Event) {
    e.Push? || e.LoadRead? || e.Decide? || e.CopyByte? || e.StoreSize? || e.Publish?
  }

  function Step(r: Ring, e: Event): Option<Ring>
    requires r.capacity == |r.slots| > 0
    requires forall i :: 0 <= i < |r.slots| ==> |r.slots[i].data| == MAX_FRAME
  {
    if ByProducer(e) then ProducerStep(r, e) else ConsumerStep(r, e)
  }

  // ---------------------------------------------------------------- what every interleaving keeps

  /** Frames written and frames released, counted without wrapping. */
  function Written(r: Ring): nat { |r.pushed| }
  function Released(r: Ring): nat { |r.popped| }

  ghost predicate Shaped(r: Ring) {
    && PowerOfTwo(r.capacity) && 0 < r.capacity <= MAX64 / 2 && |r.slots| == r.capacity
    && (forall i :: 0 <= i < |r.slots| ==> |r.slots[i].data| == MAX_FRAME)
    && r.writePosition == Wrap(Written(r)) && r.readPosition == Wrap(Released(r))
    && Released(r) <= Written(r) <= Released(r) + r.capacity
    && (forall i :: 0 <= i < |r.pushed| ==> Pushable(r.pushed[i]))
  }

  /** The slot of frame `i` holds exactly frame `i`. */
  ghost predicate Stored(r: Ring, i: nat)
    requires r.capacity == |r.slots| > 0 && i < |r.pushed|
  {
    var slot := r.slots[i % r.capacity];
    slot.size == |r.pushed[i]| <= |slot.data| && slot.data[..slot.size] == r.pushed[i]
  }

  /** `read` is a copy of the consumer's cursor, possibly from before it advanced. */
  predicate Saw(r: Ring, seen: nat, read: nat) {
    seen <= Released(r) && Written(r) - seen <= r.capacity && read == Wrap(seen)
  }

  ghost predicate ProducerOk(r: Ring)
    requires Shaped(r)
  {
    var slot := r.slots[Written(r) % r.capacity];
    match r.producer
    case PIdle => true
    case PRead(frame, write) => Pushable(frame) && write == r.writePosition
    case PChecked(frame, write, read) =>
      && Pushable(frame) && write == r.writePosition
      && exists seen :: Saw(r, seen, read)
    case PCopying(frame, write, copied) =>
      && Pushable(frame) && write == r.writePosition && Written(r) < Released(r) + r.capacity
      && copied <= |frame| && slot.data[..copied] == frame[..copied]
    case PSized(frame, write) =>
      && Pushable(frame) && write == r.writePosition && Written(r) < Released(r) + r.capacity
      && slot.size == |frame| && slot.data[..|frame|] == frame
  }

  /** `write` is a copy of the producer's cursor, possibly from before it published more. */
  predicate SawWritten(r: Ring, seen: nat, write: nat) {
    Released(r) <= seen <= Written(r) && write == Wrap(seen)
  }

  ghost predicate ConsumerOk(r: Ring)
    requires Shaped(r)
  {
    match r.consumer
    case CIdle => true
    case CFront(read) => read == r.readPosition
    case CFrontSeen(read, write) => read == r.readPosition && exists seen :: SawWritten(r, seen, write)
    case CFound(read) => read == r.readPosition && Released(r) < Written(r)
    case Holding(read, size, taken) =>
      && read == r.readPosition && Released(r) < Written(r) && size == |r.pushed[Released(r)]|
      && |taken| <= size && taken == r.pushed[Released(r)][..|taken|]
    case CPop(read) => read == r.readPosition
    case CPopSeen(read, write) => read == r.readPosition && exists seen :: SawWritten(r, seen, write)
    case CAdvance(read) => read == r.readPosition && Released(r) < Written(r)
  }

  /** Occupancy within bounds, waiting frames intact, and what was popped is a prefix of what was pushed. */
  ghost predicate Inv(r: Ring) {
    && Shaped(r) && ProducerOk(r) && ConsumerOk(r)
    && (forall i :: Released(r) <= i < Written(r) ==> Stored(r, i))
    && r.popped <= r.pushed
  }

  /** Writing the slot behind the write cursor touches no waiting frame. */
  lemma OtherSlots(r: Ring, t: Ring, slot: Slot)
    requires Shaped(r) && Written(r) < Released(r) + r.capacity
    requires forall i :: Released(r) <= i < Written(r) ==> Stored(r, i)
    requires t.capacity == r.capacity && t.pushed == r.pushed && t.popped == r.popped
    requires t.slots == r.slots[Written(r) % r.capacity := slot]
    ensures forall i :: Released(r) <= i < Written(r) ==> Stored(t, i)
  {
    hide Wrap;
    forall i | Released(r) <= i < Written(r) ensures Stored(t, i) {
      assert Stored(r, i);
      SlotsApart(Written(r), i, r.capacity);
    }
  }

  /** A copy of the other cursor, however stale, never makes a full ring look free. */
  lemma DecideKeeps(r: Ring, read: nat)
    requires Shaped(r) && exists seen :: Saw(r, seen, read)
    ensures read <= MAX64 && (Minus(r.writePosition, read) != r.capacity ==> Written(r) < Released(r) + r.capacity)
  {
    hide Wrap, PowerOfTwo;
    var seen :| Saw(r, seen, read);
    WrapDistance(Written(r), seen);
  }

  /** A copy of the write cursor, however stale, never makes an empty ring look filled. */
  lemma FoundKeeps(r: Ring, write: nat)
    requires Shaped(r) && exists seen :: SawWritten(r, seen, write)
    ensures r.readPosition != write ==> Released(r) < Written(r)
  {
    hide Wrap, PowerOfTwo;
    var seen :| SawWritten(r, seen, write);
    WrapDistance(seen, Released(r));
  }

  /** What the consumer knows stays true when the producer moves on. */
  lemma ConsumerStays(r: Ring, t: Ring)
    requires Shaped(r) && Shaped(t) && ConsumerOk(r) && t.consumer == r.consumer
    requires r.pushed <= t.pushed && t.popped == r.popped && t.readPosition == r.readPosition
    ensures ConsumerOk(t)
  {
    hide Wrap, PowerOfTwo;
    if r.consumer.CFrontSeen? || r.consumer.CPopSeen? {
      var seen :| SawWritten(r, seen, r.consumer.write);
      assert SawWritten(t, seen, r.consumer.write);
    }
  }

  lemma ProducerKeeps(r: Ring, e: Event)
    requires Inv(r) && ByProducer(e)
    ensures var t := ProducerStep(r, e); t.Some? ==> Inv(t.value) && t.value.popped == r.popped
  {
    hide Wrap, PowerOfTwo, Stored;
    var t := ProducerStep(r, e);
    if t.Some? {
      match e
      case Push(_) =>
        SameFrames(r, t.value);
        ConsumerStays(r, t.value);
      case LoadRead =>
        SameFrames(r, t.value);
        ConsumerStays(r, t.value);
        assert Saw(r, Released(r), r.readPosition);
        assert Saw(t.value, Released(r), r.readPosition);
      case Decide =>
        SameFrames(r, t.value);
        ConsumerStays(r, t.value);
        if r.producer.PChecked? { DecideKeeps(r, r.producer.read); }
      case CopyByte => CopyKeeps(r);
      case StoreSize => SizeKeeps(r);
      case Publish => PublishKeeps(r);
    }
  }

  lemma SameFrames(r: Ring, t: Ring)
    requires Shaped(r) && t.capacity == r.capacity && t.slots == r.slots && t.pushed == r.pushed && t.popped == r.popped
    requires forall i :: Released(r) <= i < Written(r) ==> Stored(r, i)
    ensures forall i :: Released(t) <= i < Written(t) ==> Stored(t, i)
  {
    hide Wrap, PowerOfTwo;
    forall i | Released(t) <= i < Written(t) ensures Stored(t, i) { assert Stored(r, i); }
  }

  lemma CopyKeeps(r: Ring)
    requires Inv(r) && ProducerStep(r, CopyByte).Some?
    ensures Inv(ProducerStep(r, CopyByte).value)
  {
    hide Wrap, PowerOfTwo, Stored;
    var t := ProducerStep(r, CopyByte).value;
    WrapIndex(Written(r), r.capacity);
    var i, p := Written(r) % r.capacity, r.producer;
    OtherSlots(r, t, t.slots[i]);
    assert t.slots[i].data[..p.copied + 1] == r.slots[i].data[..p.copied] + [p.frame[p.copied]];
    assert p.frame[..p.copied + 1] == p.frame[..p.copied] + [p.frame[p.copied]];
    ConsumerStays(r, t);
  }

  lemma SizeKeeps(r: Ring)
    requires Inv(r) && ProducerStep(r, StoreSize).Some?
    ensures Inv(ProducerStep(r, StoreSize).value)
  {
    hide Wrap, PowerOfTwo, Stored;
    var t := ProducerStep(r, StoreSize).value;
    WrapIndex(Written(r), r.capacity);
    var i, p := Written(r) % r.capacity, r.producer;
    OtherSlots(r, t, t.slots[i]);
    assert p.frame[..p.copied] == p.frame;
    ConsumerStays(r, t);
  }

  lemma PublishKeeps(r: Ring)
    requires Inv(r) && ProducerStep(r, Publish).Some?
    ensures Inv(ProducerStep(r, Publish).value)
  {
    hide Wrap, PowerOfTwo;
    var t := ProducerStep(r, Publish).value;
    WrapNext(Written(r));
    forall i | Released(t) <= i < Written(t) ensures Stored(t, i) {
      if i < Written(r) { assert Stored(r, i); }
    }
    ConsumerStays(r, t);
  }

  lemma ConsumerKeeps(r: Ring, e: Event)
    requires Inv(r) && !ByProducer(e)
    ensures var t := ConsumerStep(r, e); t.Some? ==> Inv(t.value) && t.value.pushed == r.pushed
  {
    hide Wrap, PowerOfTwo, Stored;
    var t := ConsumerStep(r, e);
    WrapIndex(Released(r), r.capacity);
    WrapDistance(Written(r), Released(r));
    if t.Some? {
      if e == Advance {
        AdvanceKeeps(r);
      } else {
        SameFrames(r, t.value);
        HeldFrame(r);
        SameSeen(r, t.value);
        if e == LoadWrite { assert SawWritten(t.value, Written(r), r.writePosition); }
        if r.consumer.CFrontSeen? || r.consumer.CPopSeen? { FoundKeeps(r, r.consumer.write); }
        if e == TakeByte {
          var c := r.consumer;
          var frame, slot := r.pushed[Released(r)], r.slots[c.read % r.capacity];
          assert frame[..|c.taken| + 1] == frame[..|c.taken|] + [frame[|c.taken|]];
          assert frame[|c.taken|] == slot.data[..slot.size][|c.taken|];
        }
      }
    }
  }

  lemma SameSeen(r: Ring, t: Ring)
    requires Shaped(r) && ProducerOk(r)
    requires t == r.(consumer := t.consumer)
    ensures ProducerOk(t)
  {
    hide Wrap, PowerOfTwo;
    if r.producer.PChecked? {
      var seen :| Saw(r, seen, r.producer.read);
      assert Saw(t, seen, r.producer.read);
    }
  }

  /** The slot at the read cursor holds the oldest waiting frame. */
  lemma HeldFrame(r: Ring)
    requires Inv(r)
    ensures Released(r) < Written(r) ==>
      var slot := r.slots[r.readPosition % r.capacity];
      slot.size == |r.pushed[Released(r)]| <= MAX_FRAME && slot.data[..slot.size] == r.pushed[Released(r)]
  {
    hide Wrap, PowerOfTwo;
    WrapIndex(Released(r), r.capacity);
    if Released(r) < Written(r) { assert Stored(r, Released(r)); }
  }

  lemma AdvanceKeeps(r: Ring)
    requires Inv(r) && ConsumerStep(r, Advance).Some?
    ensures Inv(ConsumerStep(r, Advance).value) && ConsumerStep(r, Advance).value.pushed == r.pushed
  {
    hide Wrap, PowerOfTwo, Stored;
    var t := ConsumerStep(r, Advance).value;
    HeldFrame(r);
    WrapNext(Released(r));
    assert t.popped == r.popped + [r.pushed[Released(r)]];
    forall i | Released(t) <= i < Written(t) ensures Stored(t, i) { StoredStays(r, t, i); }
    if r.producer.PChecked? {
      var seen :| Saw(r, seen, r.producer.read);
      assert Saw(t, seen, r.producer.read);
    }
  }

  lemma StoredStays(r: Ring, t: Ring, i: nat)
    requires r.capacity == |r.slots| > 0 && t.capacity == r.capacity && t.slots == r.slots && t.pushed == r.pushed
    requires i < |r.pushed| && Stored(r, i)
    ensures Stored(t, i)
  {
  }

  /** The bytes behind a view that `front` returned. */
  function View(r: Ring): seq<byte>
    requires r.consumer.Holding? && r.capacity == |r.slots| > 0
    requires r.consumer.size <= |r.slots[r.consumer.read % r.capacity].data|
  {
    r.slots[r.consumer.read % r.capacity].data[..r.consumer.size]
  }

  /** A held view is never overwritten: no producer step changes a byte of it. */
  lemma HeldViewStays(r: Ring, e: Event)
    requires Inv(r) && r.consumer.Holding? && ByProducer(e) && ProducerStep(r, e).Some?
    ensures var t := ProducerStep(r, e).value;
      && t.consumer == r.consumer && Inv(t) && r.consumer.size <= MAX_FRAME
      && View(t) == View(r) == r.pushed[Released(r)]
  {
    hide PowerOfTwo, Stored, ProducerStep, ProducerOk;
    ProducerKeeps(r, e);
    var t := ProducerStep(r, e).value;
    ProducerKeepsConsumer(r, e);
    HeldFrame(r);
    HeldFrame(t);
  }

  lemma ProducerKeepsConsumer(r: Ring, e: Event)
    requires Shaped(r) && ByProducer(e) && ProducerStep(r, e).Some?
    ensures var t := ProducerStep(r, e).value;
      t.consumer == r.consumer && t.popped == r.popped && r.pushed <= t.pushed && t.readPosition == r.readPosition
  {
    hide PowerOfTwo, Wrap;
  }

  // ---------------------------------------------------------------- whole runs

  function Run(r: Ring, events: seq<Event>): Option<Ring>
    requires Shaped(r)
  {
    if events == [] then Some(r)
    else
      match Run(r, events[..|events| - 1])
      case None => None
      case Some(t) =>
        if t.capacity == |t.slots| > 0 && (forall i :: 0 <= i < |t.slots| ==> |t.slots[i].data| == MAX_FRAME)
        then Step(t, events[|events| - 1]) else None
  }

  /**
   * Every interleaving: the pops are a prefix of the pushes, and the cursors'
   * 64-bit difference is the occupancy, within the capacity even after they wrap.
   */
  lemma {:induction false} RunKeeps(r: Ring, events: seq<Event>)
    requires Inv(r)
    ensures var t := Run(r, events);
      t.Some? ==>
        Inv(t.value) && r.pushed <= t.value.pushed && r.popped <= t.value.popped && t.value.popped <= t.value.pushed &&
        Minus(t.value.writePosition, t.value.readPosition) == |t.value.pushed| - |t.value.popped| <= t.value.capacity
  {
    hide Wrap, PowerOfTwo, Stored, ProducerOk, ConsumerOk, ProducerStep, ConsumerStep;
    if events == [] {
      WrapDistance(Written(r), Released(r));
    } else {
      RunKeeps(r, events[..|events| - 1]);
      var t, e := Run(r, events[..|events| - 1]), events[|events| - 1];
      if t.Some? && Step(t.value, e).Some? {
        var u := Step(t.value, e).value;
        if ByProducer(e) { ProducerKeeps(t.value, e); ProducerKeepsConsumer(t.value, e); }
        else { ConsumerKeeps(t.value, e); ConsumerPops(t.value, e); }
        WrapDistance(Written(u), Released(u));
      }
    }
  }

  lemma ConsumerPops(r: Ring, e: Event)
    requires Shaped(r) && !ByProducer(e) && ConsumerStep(r, e).Some?
    ensures r.popped <= ConsumerStep(r, e).value.popped
  {
    hide PowerOfTwo, Wrap;
  }

  /** An empty ring. Runs are unbounded, so both cursors wrap any number of times. */
  lemma Starts(capacity: nat, slots: seq<Slot>)
    requires PowerOfTwo(capacity) && 0 < capacity <= MAX64 / 2 && |slots| == capacity
    requires forall i :: 0 <= i < |slots| ==> |slots[i].data| == MAX_FRAME
    ensures Inv(Ring(capacity, slots, 0, 0, PIdle, CIdle, [], []))
  {
  }
}
